/** The settling wait of the firmware on the emulator: the start-up code computes its count, and the wait
    lasts at least as long as the chain-end allowance for the configured lengths (`settle` of
    tests/pru_audit.py). */
module Settling {
  import opened Abi
  import opened Arithmetic
  import opened PruEmulator
  import opened Transmitter
  import B = Budgets

  /** One register instruction on whole registers. */
  lemma AluRuns(code: seq<Instruction>, m: Machine, op: AluOp, dst: nat, src: nat, operand: Operand, v: u32)
    requires Here(code, m) && dst < 32 && src < 32 && code[m.pc] == Alu(op, R(dst), R(src), operand)
    requires operand == Imm(v) || exists n: nat :: n < 32 && operand == Field(R(n)) && m.r[n] == v
    ensures Reaches(code, m, 1, Next(m.(r := m.r[dst := Cut(AluResult(op, m.r[src], v))]), m.pc + 1))
  {
    if operand.Field? {
      var n: nat :| n < 32 && operand == Field(R(n)) && m.r[n] == v;
      Whole(m.r, n, 0);
    }
    Whole(m.r, src, 0);
    Whole(m.r, dst, AluResult(op, m.r[src], v));
    hide Reg, Put, AluResult, Cut, R;
    One(code, m, Next(m.(r := m.r[dst := Cut(AluResult(op, m.r[src], v))]), m.pc + 1));
  }

  /** The addition loop of the start-up code and the rounding after it. */
  predicate SettleCodeAt(code: seq<Instruction>, p: int) {
    && 0 <= p && p + 8 <= |code|
    && code[p] == Branch(Eq, R(26), Imm(0), p + 6) && code[p + 1] == Alu(Sub, R(26), R(26), Imm(1))
    && code[p + 2] == Branch(Eq, R(26), Imm(0), p + 6) && code[p + 3] == Alu(Add, R(5), R(5), Field(R(0)))
    && code[p + 4] == Alu(Sub, R(26), R(26), Imm(1)) && Goes(code[p + 5], p + 2)
    && code[p + 6] == Alu(Add, R(5), R(5), Imm(1)) && code[p + 7] == Alu(Lsr, R(5), R(5), Imm(1))
  }

  /** The machine with other contents of r5 and r26, at another place and time. */
  function Moved(m: Machine, r5: u32, r26: u32, cycles: nat, pc: int): Machine {
    m.(r := m.r[5 := r5][26 := r26], cycles := cycles, pc := pc)
  }

  /** settle_add: r26 times r0 is added to r5. */
  lemma {:induction false} AddLoopRuns(code: seq<Instruction>, p: int, m: Machine) returns (n: nat, t: Machine)
    requires Shaped(m) && SettleCodeAt(code, p) && m.pc == p + 2
    requires m.r[5] + m.r[26] as int * m.r[0] < 0x1_0000_0000
    ensures Reaches(code, m, n, t) && t == Moved(m, m.r[5] + m.r[26] as int * m.r[0], 0, t.cycles, p + 6)
    decreases m.r[26]
  {
    hide Reaches, AluResult;
    TestRuns(code, m, Eq, 26, 0, p + 6);
    if m.r[26] == 0 {
      n, t := 1, Next(m, p + 6);
      assert m.r[5 := m.r[5]][26 := 0] == m.r;
    } else {
      var left: int := m.r[26] as int - 1;
      Distribute(left, 1, m.r[0]);
      Multiple(left, m.r[0]);
      var a := Next(m, p + 3);
      var sum: u32 := m.r[5] + m.r[0];
      AddRuns(code, a);
      var b := Next(a.(r := a.r[5 := sum]), p + 4);
      Then(code, m, 1, a, 1, b);
      CountDownRuns(code, b);
      var c := Next(b.(r := b.r[26 := left]), p + 5);
      Then(code, m, 2, b, 1, c);
      GoRuns(code, c, p + 2);
      var d := Next(c, p + 2);
      Then(code, m, 3, c, 1, d);
      var k;
      k, t := AddLoopRuns(code, p, d);
      Then(code, m, 4, d, k, t);
      n := 4 + k;
      assert d.r[5 := sum + left * m.r[0]][26 := 0] == m.r[5 := sum + left * m.r[0]][26 := 0];
    }
  }

  lemma Multiple(a: nat, b: nat)
    ensures a * b >= 0
  {
  }

  lemma AddRuns(code: seq<Instruction>, m: Machine)
    requires Here(code, m) && code[m.pc] == Alu(Add, R(5), R(5), Field(R(0))) && m.r[5] + m.r[0] as int < 0x1_0000_0000
    ensures Reaches(code, m, 1, Next(m.(r := m.r[5 := m.r[5] + m.r[0]]), m.pc + 1))
  {
    AluRuns(code, m, Add, 5, 5, Field(R(0)), m.r[0]);
    CutSmall(m.r[5] + m.r[0]);
  }

  lemma CountDownRuns(code: seq<Instruction>, m: Machine)
    requires Here(code, m) && code[m.pc] == Alu(Sub, R(26), R(26), Imm(1)) && m.r[26] > 0
    ensures Reaches(code, m, 1, Next(m.(r := m.r[26 := m.r[26] - 1]), m.pc + 1))
  {
    AluRuns(code, m, Sub, 26, 26, Imm(1), 1);
    CutSmall(m.r[26] - 1);
  }

  lemma RoundRuns(code: seq<Instruction>, m: Machine)
    requires Shaped(m) && 0 <= m.pc && m.pc + 2 <= |code| && m.r[5] < 0xffff_ffff
    requires code[m.pc] == Alu(Add, R(5), R(5), Imm(1)) && code[m.pc + 1] == Alu(Lsr, R(5), R(5), Imm(1))
    ensures Reaches(code, m, 2, m.(r := m.r[5 := (m.r[5] as int + 1) / 2], cycles := m.cycles + 2, pc := m.pc + 2))
  {
    hide Reaches;
    AluRuns(code, m, Add, 5, 5, Imm(1), 1);
    CutSmall(m.r[5] + 1);
    var a := Next(m.(r := m.r[5 := m.r[5] + 1]), m.pc + 1);
    AluRuns(code, a, Lsr, 5, 5, Imm(1), 1);
    assert AluResult(Lsr, a.r[5], 1) == a.r[5] / 2;
    CutSmall(a.r[5] / 2);
    var b := Next(a.(r := a.r[5 := a.r[5] / 2]), m.pc + 2);
    Then(code, m, 1, a, 1, b);
    assert b.r == m.r[5 := (m.r[5] as int + 1) / 2];
  }

  /** The start-up code leaves in r5 half the settling time of the longest string, rounded up. */
  lemma SettleComputed(code: seq<Instruction>, m: Machine, lengths: Lengths) returns (n: nat, t: Machine)
    requires Shaped(m) && SettleCodeAt(code, m.pc) && ValidLengths(lengths)
    requires m.r[5] == B.RESET_CYCLES + B.SETTLE_MARGIN_CYCLES && m.r[0] == B.PROPAGATION_CYCLES
    requires m.r[26] == B.Longest(lengths)
    ensures Reaches(code, m, n, t) && t.pc == m.pc + 8 && t.r[5] == (B.SettleCycles(lengths) + 1) / 2
    ensures t.events == m.events && forall i :: 0 <= i < 32 && i != 5 && i != 26 ==> t.r[i] == m.r[i]
  {
    hide Reaches, B.Longest;
    B.Ranges(lengths);
    var p := m.pc;
    TestRuns(code, m, Eq, 26, 0, p + 6);
    var u;
    if m.r[26] == 0 {
      n, u := 1, Next(m, p + 6);
    } else {
      var a := Next(m, p + 1);
      CountDownRuns(code, a);
      var b := Next(a.(r := a.r[26 := a.r[26] - 1]), p + 2);
      Then(code, m, 1, a, 1, b);
      var k;
      k, u := AddLoopRuns(code, p, b);
      Then(code, m, 2, b, k, u);
      n := 2 + k;
    }
    assert u.r[5] == B.SettleCycles(lengths) && u.pc == p + 6;
    ReachesShape(code, m, n, u);
    RoundRuns(code, u);
    t := u.(r := u.r[5 := (u.r[5] as int + 1) / 2], cycles := u.cycles + 2, pc := u.pc + 2);
    Then(code, m, n, u, 2, t);
    n := n + 2;
  }

  /** WAIT_SETTLE: MOV, the delay loop, and the return. */
  predicate WaitCodeAt(code: seq<Instruction>, p: int) {
    && 0 <= p && p + 4 <= |code|
    && code[p] == Mov(18, 5) && code[p + 1] == Alu(Sub, R(18), R(18), Imm(1))
    && code[p + 2] == Branch(Ne, R(18), Imm(0), p + 1) && code[p + 3] == Jump(Field(RETURN))
  }

  /** r28.w0. */
  const RETURN: Code := 156

  /** With the count computed above, the wait lasts longer than the settling time, writes no pin and comes
      back to its caller. */
  lemma WaitSettles(code: seq<Instruction>, m: Machine, lengths: Lengths) returns (n: nat, t: Machine)
    requires Shaped(m) && WaitCodeAt(code, m.pc) && ValidLengths(lengths) && m.r[5] == (B.SettleCycles(lengths) + 1) / 2
    ensures Reaches(code, m, n, t) && t.pc == Reg(m.r, RETURN) && t.events == m.events
    ensures t.cycles - m.cycles == n && n >= B.SettleCycles(lengths) + 2
  {
    hide Reaches, B.SettleCycles;
    B.Ranges(lengths);
    var p := m.pc;
    var count: int := m.r[5];
    MovRuns(code, m, 18, 5);
    var a := Next(m.(r := m.r[18 := m.r[5]]), p + 1);
    DelayRuns(code, a, 18);
    var b := a.(r := a.r[18 := 0], cycles := a.cycles + 2 * count, pc := p + 3);
    Then(code, m, 1, a, 2 * count, b);
    ReturnRuns(code, b);
    assert Reg(b.r, RETURN) == Reg(m.r, RETURN);
    t := Next(b, Reg(b.r, RETURN));
    Then(code, m, 1 + 2 * count, b, 1, t);
    n := 2 + 2 * count;
  }

  lemma ReturnRuns(code: seq<Instruction>, m: Machine)
    requires Here(code, m) && code[m.pc] == Jump(Field(RETURN))
    ensures Reaches(code, m, 1, Next(m, Reg(m.r, RETURN)))
  {
    hide Reg;
    One(code, m, Next(m, Reg(m.r, RETURN)));
  }
}
