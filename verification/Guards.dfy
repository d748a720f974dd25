/** What the audit of the firmware image asserts at every write of its sample runs, proved of every run the
    emulator does not refuse: the firmware never touches the configuration, the request or the grant, nor any
    GPIO bit but the LED pins; it raises a pin only under the grant of its block; and it announces a bank only
    with the bank's pins low and read back. */
module Guards {
  import opened Abi
  import opened Arithmetic
  import opened Wrappers
  import opened PruEmulator
  import opened Transmitter

  /** The bytes of the six handshake words the firmware owns. */
  predicate FirmwareByte(i: int) {
    44 <= i < 60 || 64 <= i < 72
  }

  predicate SameOutside(a: u32, b: u32, mask: u32) {
    forall j: nat :: j < 32 && !BitOf(mask, j) ==> BitOf(b, j) == BitOf(a, j)
  }

  /** All words of RAM but the firmware's own, the directions, the grants and all GPIO bits but the LED pins
      are as they were. */
  predicate Confined(a: Machine, b: Machine) {
    && Shaped(a) && Shaped(b)
    && (forall i :: 0 <= i < RAM_BYTES && !FirmwareByte(i) ==> b.ram[i] == a.ram[i])
    && b.oe == a.oe && b.stuck == a.stuck && b.grants == a.grants
    && (forall k: nat :: k < 3 ==> SameOutside(a.gpio[k], b.gpio[k], FixedMask(k)))
  }

  /** Block k has been granted last. */
  predicate GrantedLast(m: Machine, k: nat) {
    m.grants != [] && m.grants[|m.grants| - 1].1 == k + 1
  }

  /** Block k's LED pins are low, and the last latch read back was block k's. */
  predicate LowAndRead(m: Machine, k: nat)
    requires Shaped(m) && k < 3
  {
    AndWord(m.gpio[k], FixedMask(k)) == 0 && m.readbacks != [] && m.readbacks[|m.readbacks| - 1].1 == k
  }

  /** A pin write made in state m. */
  predicate GuardedEvent(m: Machine, e: Event) {
    && e.cycle == m.cycles && e.pc == m.pc && e.bank < 3 && Within(e.value, FixedMask(e.bank))
    && (e.offset == CLEAR || (e.offset == SET && GrantedLast(m, e.bank)))
  }

  /** A bank announced in state m. */
  predicate GuardedCompletion(m: Machine, c: (nat, u32)) {
    c.0 == m.cycles && 1 <= c.1 <= 3 && Shaped(m) && LowAndRead(m, c.1 - 1)
  }

  /** The records grow, at most by one guarded entry each. */
  predicate OneMore(a: Machine, b: Machine) {
    && (b.events == a.events || (|b.events| == |a.events| + 1 && b.events[..|a.events|] == a.events
                                 && GuardedEvent(a, b.events[|a.events|])))
    && (b.completions == a.completions || (|b.completions| == |a.completions| + 1
                                           && b.completions[..|a.completions|] == a.completions
                                           && GuardedCompletion(a, b.completions[|a.completions|])))
  }

  // ---------------------------------------------------------------- one step

  lemma {:induction false} ComplementBit(v: nat, n: nat, j: nat)
    requires v < Pow2(n) && j < n
    ensures BitOf(Pow2(n) - 1 - v, j) == !BitOf(v, j)
    decreases n
  {
    var c: nat := Pow2(n) - 1 - v;
    Pow2Even(n);
    hide BitOf;
    if j == 0 {
      BitZero(c);
      BitZero(v);
    } else {
      assert c / 2 == Pow2(n - 1) - 1 - v / 2;
      ComplementBit(v / 2, n - 1, j - 1);
      BitHalf(c, j);
      BitHalf(v, j);
    }
  }

  /** SET and CLEAR of bits within the mask leave the others alone. */
  lemma PinsConfined(g: u32, v: u32, mask: u32)
    requires Within(v, mask)
    ensures SameOutside(g, OrWord(g, v), mask) && SameOutside(g, AndWord(g, Cut(-1 - (v as int))), mask)
  {
    OrBits(g, v);
    var c := Cut(-1 - (v as int));
    Pow32();
    assert c == Pow2(32) - 1 - v;
    AndBits(g, c);
    hide BitOf, OrWord, AndWord, Cut;
    forall j: nat | j < 32 ensures BitOf(c, j) == !BitOf(v, j) { ComplementBit(v, 32, j); }
  }

  lemma OrWithin(v: u32, mask: u32)
    requires OrWord(v, mask) == mask
    ensures Within(v, mask)
  {
    OrBits(v, mask);
    hide BitOf, OrWord;
  }

  lemma SameGpio(m: Machine)
    ensures |m.gpio| == 3 ==> forall k: nat :: k < 3 ==> SameOutside(m.gpio[k], m.gpio[k], FixedMask(k))
  {
  }

  lemma PinWriteGuarded(m: Machine, k: nat, offset: int, v: u32)
    requires Shaped(m) && k < 3 && PinWrite(m, k, offset, v).Some?
    ensures var n := PinWrite(m, k, offset, v).value; Confined(m, n) && OneMore(m, n)
  {
    hide OrWord, AndWord, FixedMask, Within, SameOutside, Cut;
    OrWithin(v, FixedMask(k));
    PinsConfined(m.gpio[k], v, FixedMask(k));
    SameGpio(m);
    var n := PinWrite(m, k, offset, v).value;
    assert n.events[..|m.events|] == m.events;
  }

  lemma RamWriteGuarded(m: Machine, address: int, data: seq<byte>)
    requires Shaped(m) && 0 <= address < RAM_BYTES && Write(m, address, data).Some?
    ensures var n := Write(m, address, data).value; Confined(m, n) && OneMore(m, n)
  {
    hide AndWord, FixedMask, SameOutside, Join;
    SameGpio(m);
    var n := Write(m, address, data).value;
    assert n.ram == m.ram[..address] + data + m.ram[address + 4..];
    assert n.completions == m.completions || n.completions[..|m.completions|] == m.completions;
  }

  lemma WriteGuarded(m: Machine, address: int, data: seq<byte>)
    requires Shaped(m) && address >= 0 && Write(m, address, data).Some?
    ensures var n := Write(m, address, data).value; Confined(m, n) && OneMore(m, n)
  {
    if address < RAM_BYTES {
      RamWriteGuarded(m, address, data);
    } else {
      hide Join, Confined, OneMore, PinWrite;
      Unchanged(m);
      var v := Join(data[0], data[1], data[2], data[3]);
      if address == SYSCFG {
        ControlGuarded(m, v);
      } else if address == CTBIR {
        ControlGuarded(m, v);
      } else {
        PinWriteGuarded(m, BlockAt(address).value, address % 0x1000, v);
      }
    }
  }

  lemma Unchanged(m: Machine)
    requires Shaped(m)
    ensures Confined(m, m) && OneMore(m, m)
  {
    hide SameOutside;
    SameGpio(m);
  }

  lemma ControlGuarded(m: Machine, v: u32)
    requires Shaped(m)
    ensures Confined(m, m.(syscfg := v)) && OneMore(m, m.(syscfg := v))
    ensures Confined(m, m.(ctbir := v)) && OneMore(m, m.(ctbir := v))
  {
    hide SameOutside;
    SameGpio(m);
  }

  /** Registers, pc, cycles and readbacks are not guarded. */
  lemma Elsewhere(a: Machine, b: Machine, c: Machine)
    requires Confined(a, b) && OneMore(a, b)
    requires c == b.(r := c.r, pc := c.pc, cycles := c.cycles, halted := c.halted, readbacks := c.readbacks)
    ensures Confined(a, c) && OneMore(a, c)
  {
    hide SameOutside, GuardedEvent, GuardedCompletion;
  }

  lemma PlainGuarded(code: seq<Instruction>, m: Machine)
    requires Shaped(m) && Plain(code, m).Some?
    ensures var t := Plain(code, m).value; Confined(m, t) && OneMore(m, t)
  {
    hide Put, Reg, AluResult, Taken, Read, GetBytes, PutBytes, Write, AddressOf, KnownBase, Confined, OneMore, BlockAt;
    var t := Plain(code, m).value;
    Unchanged(m);
    if code[m.pc].Store? {
      var i := code[m.pc];
      var address, data := AddressOf(m, i.base, i.operand), GetBytes(m.r, i.first, i.count);
      AddressNonnegative(m, i.base, i.operand);
      WriteGuarded(m, address, data);
      Elsewhere(m, Write(m, address, data).value, t);
    } else {
      Elsewhere(m, m, t);
    }
  }

  // ---------------------------------------------------------------- runs

  lemma ConfinedThen(a: Machine, b: Machine, c: Machine)
    requires Confined(a, b) && Confined(b, c)
    ensures Confined(a, c)
  {
    forall k: nat | k < 3 ensures SameOutside(a.gpio[k], c.gpio[k], FixedMask(k)) {
      assert SameOutside(a.gpio[k], b.gpio[k], FixedMask(k)) && SameOutside(b.gpio[k], c.gpio[k], FixedMask(k));
      hide BitOf, FixedMask;
    }
    hide SameOutside, FixedMask;
  }

  /** A state of the run from m, after at most n cycles. */
  ghost predicate Passed(code: seq<Instruction>, m: Machine, n: nat, u: Machine) {
    Shaped(m) && exists k: nat :: k <= n && Run(code, m, k) == Some(u)
  }

  /** Every record made in a run was guarded in the state in which it was made. */
  ghost predicate RecordsGuarded(code: seq<Instruction>, m: Machine, n: nat, t: Machine) {
    && |m.events| <= |t.events| && t.events[..|m.events|] == m.events
    && |m.completions| <= |t.completions| && t.completions[..|m.completions|] == m.completions
    && (forall i :: |m.events| <= i < |t.events| ==>
          exists u: Machine :: Passed(code, m, n, u) && GuardedEvent(u, t.events[i]))
    && (forall i :: |m.completions| <= i < |t.completions| ==>
          exists u: Machine :: Passed(code, m, n, u) && GuardedCompletion(u, t.completions[i]))
  }

  lemma PassedLater(code: seq<Instruction>, m: Machine, n: nat)
    requires Shaped(m)
    ensures forall u: Machine :: Passed(code, m, n, u) ==> Passed(code, m, n + 1, u)
  {
    hide Run;
    forall u: Machine | Passed(code, m, n, u) ensures Passed(code, m, n + 1, u) {
      var k: nat :| k <= n && Run(code, m, k) == Some(u);
      assert k <= n + 1;
    }
  }

  lemma RecordsGrow(code: seq<Instruction>, m: Machine, n: nat, u: Machine, t: Machine)
    requires RecordsGuarded(code, m, n, u) && OneMore(u, t) && Passed(code, m, n, u)
    ensures RecordsGuarded(code, m, n + 1, t)
  {
    PassedLater(code, m, n);
    hide Passed, GuardedEvent, GuardedCompletion;
    forall i | |m.events| <= i < |t.events|
      ensures exists w: Machine :: Passed(code, m, n + 1, w) && GuardedEvent(w, t.events[i])
    {
      if i < |u.events| {
        assert t.events[i] == u.events[i];
        var w: Machine :| Passed(code, m, n, w) && GuardedEvent(w, u.events[i]);
        assert Passed(code, m, n + 1, w) && GuardedEvent(w, t.events[i]);
      } else {
        assert Passed(code, m, n + 1, u) && GuardedEvent(u, t.events[i]);
      }
    }
    forall i | |m.completions| <= i < |t.completions|
      ensures exists w: Machine :: Passed(code, m, n + 1, w) && GuardedCompletion(w, t.completions[i])
    {
      if i < |u.completions| {
        assert t.completions[i] == u.completions[i];
        var w: Machine :| Passed(code, m, n, w) && GuardedCompletion(w, u.completions[i]);
        assert Passed(code, m, n + 1, w) && GuardedCompletion(w, t.completions[i]);
      } else {
        assert Passed(code, m, n + 1, u) && GuardedCompletion(u, t.completions[i]);
      }
    }
    assert t.events[..|m.events|] == u.events[..|m.events|];
    assert t.completions[..|m.completions|] == u.completions[..|m.completions|];
  }

  /** For every program and every run of it that is not refused. */
  lemma {:induction false} RunGuarded(code: seq<Instruction>, m: Machine, n: nat)
    requires Shaped(m) && Run(code, m, n).Some?
    ensures var t := Run(code, m, n).value; Confined(m, t) && RecordsGuarded(code, m, n, t)
    decreases n
  {
    if n == 0 {
      Unchanged(m);
    } else {
      var u := LastStep(code, m, n);
      var t := Run(code, m, n).value;
      RunGuarded(code, m, n - 1);
      hide Plain, Run, Confined, OneMore, RecordsGuarded;
      PlainGuarded(code, u);
      ConfinedThen(m, u, t);
      assert Passed(code, m, n - 1, u);
      RecordsGrow(code, m, n - 1, u, t);
    }
  }

  lemma LastStep(code: seq<Instruction>, m: Machine, n: nat) returns (u: Machine)
    requires Shaped(m) && n > 0 && Run(code, m, n).Some?
    ensures Run(code, m, n - 1) == Some(u) && Shaped(u) && Plain(code, u) == Run(code, m, n)
  {
    hide Plain;
    EarlierRuns(code, m, n - 1, n);
    RunAdds(code, m, n - 1, 1);
    u := Run(code, m, n - 1).value;
    StepKeepsShape(code, u);
    assert Run(code, u, 1) == Plain(code, u) by {
      if Plain(code, u).Some? { assert Run(code, Plain(code, u).value, 0) == Plain(code, u); }
    }
  }

  lemma {:induction false} EarlierRuns(code: seq<Instruction>, m: Machine, a: nat, b: nat)
    requires Shaped(m) && a <= b && Run(code, m, b).Some?
    ensures Run(code, m, a).Some?
    decreases a
  {
    hide Plain;
    if a > 0 {
      StepKeepsShape(code, m);
      EarlierRuns(code, Plain(code, m).value, a - 1, b - 1);
    }
  }

  /** And so for the accelerated runs the audit makes, delay loops taken in one go. */
  lemma FastRunGuarded(code: seq<Instruction>, m: Machine, n: nat)
    requires Shaped(m) && FastRun(code, m, n).Some?
    ensures var t := FastRun(code, m, n).value;
            t.cycles >= m.cycles && Confined(m, t) && RecordsGuarded(code, m, t.cycles - m.cycles, t)
  {
    hide Run, FastRun, Confined, RecordsGuarded;
    FastIsPlain(code, m, n);
    RunGuarded(code, m, FastRun(code, m, n).value.cycles - m.cycles);
  }
}
