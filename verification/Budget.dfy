/** Transmission budgets (dld_compute_budget in src/dld_common.c) in explicit 64-bit arithmetic, and their
    relation to the kernel helper's per-bank budgets. */
module Budgets {
  import opened Abi
  import T = Transaction

  const U64 := 0x1_0000_0000_0000_0000
  const PRU_HZ := 200_000_000
  const CPU_MAX_HZ := 1_000_000_000
  const NS := 1_000_000_000
  const BIT_CYCLES := 240
  const RESET_CYCLES := 60_000
  const SETTLE_MARGIN_CYCLES := 20_000
  const PROPAGATION_CYCLES := 200
  const ACCEPTANCE_NS := 100_000
  const CONTROL_NS := 500_000
  const HOST_GUARD_NS := 1_000_000
  const SPIN_MIN_CYCLES := 1

  type u64 = x: int | 0 <= x < U64

  /** Unsigned 64-bit arithmetic as the compiler does it. */
  function Wrap(x: int): u64 { x % U64 }

  datatype Budget = Budget(settleNs: u64, quietNs: u64, iterations: u32)

  datatype Error = BadProfile | BadFrequency | BadLength | Overflow | CountOverflow
  datatype Result = Ok(budget: Budget) | Err(error: Error)

  function Longest(n: Lengths): u32 {
    Max(Max(Max(n[0], n[1]), Max(n[2], n[3])), Max(n[4], n[5]))
  }

  function TotalLength(n: Lengths): int {
    BankLength(n, 1) + BankLength(n, 2) + BankLength(n, 3)
  }

  /** PRU cycles of the data of all banks, one after another. */
  function DataCycles(n: Lengths): int { 24 * BIT_CYCLES * TotalLength(n) }

  /** PRU cycles until the end of the longest chain has latched. */
  function SettleCycles(n: Lengths): int {
    RESET_CYCLES + SETTLE_MARGIN_CYCLES + if Longest(n) > 0 then (Longest(n) - 1) * PROPAGATION_CYCLES else 0
  }

  function CeilDiv(a: int, b: int): int
    requires b > 0
  {
    (a + b - 1) / b
  }

  /** The budget in unbounded arithmetic. */
  function Exact(n: Lengths, cpuHz: nat): (r: (int, int, int)) {
    var settle := CeilDiv(SettleCycles(n) * NS, PRU_HZ);
    var quiet := CeilDiv((DataCycles(n) + SettleCycles(n)) * NS, PRU_HZ) + ACCEPTANCE_NS + CONTROL_NS + HOST_GUARD_NS;
    (settle, quiet, CeilDiv(quiet * cpuHz, NS * SPIN_MIN_CYCLES))
  }

  /** The maximum of the first k lengths. */
  function Upto(n: Lengths, k: nat): u32
    requires k <= 6
  {
    if k == 0 then 0 else Max(Upto(n, k - 1), n[k - 1])
  }

  lemma UptoAll(n: Lengths)
    ensures Upto(n, 6) == Longest(n)
  {
    assert Upto(n, 1) == n[0] && Upto(n, 2) == Max(n[0], n[1]);
    assert Upto(n, 4) == Max(Max(Upto(n, 2), n[2]), n[3]);
    assert Upto(n, 6) == Max(Max(Upto(n, 4), n[4]), n[5]);
  }

  lemma Ranges(n: Lengths)
    requires ValidLengths(n)
    ensures 0 <= Longest(n) <= 300 && 0 <= TotalLength(n) <= 900
    ensures 80_000 <= SettleCycles(n) <= 139_800 && 0 <= DataCycles(n) <= 5_184_000
  {
  }

  lemma WrapFits(x: int)
    requires 0 <= x < U64
    ensures Wrap(x) == x
  {
  }

  lemma QuietRange(cycles: int)
    requires 80_000 <= cycles <= 5_323_800
    ensures 400_000 <= CeilDiv(cycles * NS, PRU_HZ) <= 26_619_000
  {
  }

  lemma Scale(a: int, b: int, c: int)
    requires a <= b && 0 <= c
    ensures a * c <= b * c
  {
  }

  /** For every frequency in range neither the multiplication nor the count can overflow. */
  lemma CountRange(quiet: int, cpuHz: int)
    requires 2_000_000 <= quiet <= 28_219_000 && 0 < cpuHz <= CPU_MAX_HZ
    ensures 0 < quiet * cpuHz <= 28_219_000 * CPU_MAX_HZ && quiet <= (U64 - 1) / cpuHz
    ensures 0 < CeilDiv(quiet * cpuHz, NS) <= 28_219_000
  {
    Scale(quiet, 28_219_000, cpuHz);
    Scale(1, quiet, cpuHz);
    var product := quiet * cpuHz;
    assert 0 < product <= 28_219_000 * CPU_MAX_HZ;
    CeilRange(product);
    Divides(quiet, cpuHz);
  }

  lemma CeilRange(product: int)
    requires 0 < product <= 28_219_000 * CPU_MAX_HZ
    ensures 0 < CeilDiv(product, NS) <= 28_219_000
  {
  }

  lemma Divides(quiet: int, cpuHz: int)
    requires 0 < cpuHz && 0 <= quiet && quiet * cpuHz < U64
    ensures quiet <= (U64 - 1) / cpuHz
  {
    var q := (U64 - 1) / cpuHz;
    if quiet > q { Scale(q + 1, quiet, cpuHz); }
  }

  lemma CeilSplit(product: int)
    requires product >= 0
    ensures CeilDiv(product, NS) == product / NS + if product % NS != 0 then 1 else 0
  {
  }

  /** dld_compute_budget, statement by statement, with every 64-bit operation wrapped: on valid input no
      overflow or range branch is reachable, and the result is exact. */
  method ComputeBudget(profile: u32, n: Lengths, cpuHz: u64) returns (r: Result)
    ensures r.Err? <==> !ValidProfile(profile) || cpuHz == 0 || cpuHz > CPU_MAX_HZ || !ValidLengths(n)
    ensures r.Err? ==> r.error == if !ValidProfile(profile) then BadProfile
                                 else if cpuHz == 0 || cpuHz > CPU_MAX_HZ then BadFrequency else BadLength
    ensures r.Ok? ==> (r.budget.settleNs, r.budget.quietNs, r.budget.iterations) == Exact(n, cpuHz)
  {
    if !ValidProfile(profile) { return Err(BadProfile); }
    if cpuHz == 0 || cpuHz > CPU_MAX_HZ { return Err(BadFrequency); }
    var longest: u32 := 0;
    for i := 0 to 6
      invariant forall j :: 0 <= j < i ==> n[j] <= MAX_LENGTH
      invariant longest == Upto(n, i)
    {
      if n[i] > MAX_LENGTH { return Err(BadLength); }
      longest := Max(longest, n[i]);
    }
    hide *;
    UptoAll(n);
    var settleCycles, dataCycles := Cycles(n, longest);
    Ranges(n);
    var settleNs := RoundedNs(settleCycles);
    WrapFits(dataCycles + settleCycles);
    var quietNs := RoundedNs(Wrap(dataCycles + settleCycles));
    QuietRange(settleCycles);
    QuietRange(dataCycles + settleCycles);
    WrapFits(quietNs + (ACCEPTANCE_NS + CONTROL_NS + HOST_GUARD_NS));
    quietNs := Wrap(quietNs + (ACCEPTANCE_NS + CONTROL_NS + HOST_GUARD_NS));
    var count := Iterations(quietNs, cpuHz);
    r := Ok(Budget(settleNs, quietNs, count));
    ExactIs(n, cpuHz);
  }

  lemma ExactIs(n: Lengths, cpuHz: nat)
    ensures var quiet := CeilDiv((DataCycles(n) + SettleCycles(n)) * NS, PRU_HZ) + ACCEPTANCE_NS + CONTROL_NS + HOST_GUARD_NS;
            Exact(n, cpuHz) == (CeilDiv(SettleCycles(n) * NS, PRU_HZ), quiet, CeilDiv(quiet * cpuHz, NS))
  {
  }

  /** The settle and data cycles. */
  method Cycles(n: Lengths, longest: u32) returns (settle: u64, data: u64)
    requires ValidLengths(n) && longest == Longest(n)
    ensures settle == SettleCycles(n) && data == DataCycles(n)
  {
    Ranges(n);
    hide Longest, BankLength;
    settle := RESET_CYCLES + SETTLE_MARGIN_CYCLES;
    if longest > 0 { settle := Wrap(settle + Wrap((longest - 1) * PROPAGATION_CYCLES)); }
    data := Wrap(24 * BIT_CYCLES * (TotalLength(n) % 0x1_0000_0000));
  }

  /** The spin iterations for a quiet time; neither error branch is reachable. */
  method Iterations(quietNs: u64, cpuHz: u64) returns (count: u32)
    requires 2_000_000 <= quietNs <= 28_219_000 && 0 < cpuHz <= CPU_MAX_HZ
    ensures count == CeilDiv(quietNs * cpuHz, NS)
  {
    hide CeilDiv, Wrap;
    CountRange(quietNs, cpuHz);
    if quietNs > (U64 - 1) / cpuHz {
      assert false;
    }
    ghost var exact: int := quietNs * cpuHz;
    WrapFits(exact);
    var product: u64 := Wrap(quietNs * cpuHz);
    CeilSplit(product);
    var n: u64 := product / (NS * SPIN_MIN_CYCLES);
    if product % (NS * SPIN_MIN_CYCLES) != 0 {
      WrapFits(n + 1);
      n := Wrap(n + 1);
    }
    if n == 0 || n > 0xffff_ffff {
      assert false;
    }
    count := n;
  }

  /** PRU cycles in nanoseconds, rounded up. */
  method RoundedNs(cycles: u64) returns (ns: u64)
    requires cycles <= 5_323_800
    ensures ns == CeilDiv(cycles * NS, PRU_HZ)
  {
    ns := Wrap(Wrap(Wrap(cycles * NS) + PRU_HZ) - 1) / PRU_HZ;
  }

  /** The iterations are the least number that covers, at the given frequency, the data of all banks, the
      settling of the longest chain and the guard times. */
  lemma Covers(n: Lengths, cpuHz: nat)
    requires ValidLengths(n) && 0 < cpuHz <= CPU_MAX_HZ
    ensures var (_, quiet, iterations) := Exact(n, cpuHz);
            && iterations * NS >= quiet * cpuHz > (iterations - 1) * NS
            && quiet * PRU_HZ >= (DataCycles(n) + SettleCycles(n)) * NS + (ACCEPTANCE_NS + CONTROL_NS + HOST_GUARD_NS) * PRU_HZ
            && (quiet - 1) * PRU_HZ < (DataCycles(n) + SettleCycles(n)) * NS + (ACCEPTANCE_NS + CONTROL_NS + HOST_GUARD_NS) * PRU_HZ
  {
    var (_, quiet, iterations) := Exact(n, cpuHz);
    CeilBounds((DataCycles(n) + SettleCycles(n)) * NS, PRU_HZ);
    CeilBounds(quiet * cpuHz, NS);
    hide DataCycles, SettleCycles, CeilDiv;
  }

  lemma CeilBounds(a: int, b: int)
    requires b > 0
    ensures CeilDiv(a, b) * b >= a > (CeilDiv(a, b) - 1) * b
  {
  }

  lemma CeilMonotone(a: int, c: int, b: int)
    requires b > 0 && a <= c
    ensures CeilDiv(a, b) <= CeilDiv(c, b)
  {
    CeilBounds(a, b);
    CeilBounds(c, b);
    if CeilDiv(a, b) > CeilDiv(c, b) { Scale(CeilDiv(c, b), CeilDiv(a, b) - 1, b); }
  }

  /** A longer string never gets a smaller budget. */
  lemma Monotone(n: Lengths, m: Lengths, cpuHz: nat)
    requires forall i :: 0 <= i < 6 ==> n[i] <= m[i]
    ensures var a, b := Exact(n, cpuHz), Exact(m, cpuHz); a.0 <= b.0 && a.1 <= b.1 && a.2 <= b.2
  {
    LongestMonotone(n, m);
    CyclesMonotone(n, m);
    hide SettleCycles, DataCycles, CeilDiv;
    CeilMonotone(SettleCycles(n) * NS, SettleCycles(m) * NS, PRU_HZ);
    CeilMonotone((DataCycles(n) + SettleCycles(n)) * NS, (DataCycles(m) + SettleCycles(m)) * NS, PRU_HZ);
    var p, q := Exact(n, cpuHz).1, Exact(m, cpuHz).1;
    Scale(p, q, cpuHz);
    CeilMonotone(p * cpuHz, q * cpuHz, NS);
  }

  lemma CyclesMonotone(n: Lengths, m: Lengths)
    requires Longest(n) <= Longest(m) && TotalLength(n) <= TotalLength(m)
    ensures SettleCycles(n) <= SettleCycles(m) && DataCycles(n) <= DataCycles(m)
  {
    hide Longest, TotalLength;
  }

  lemma MaxMonotone(a: u32, b: u32, c: u32, d: u32)
    requires a <= c && b <= d
    ensures Max(a, b) <= Max(c, d)
  {
  }

  lemma LongestMonotone(n: Lengths, m: Lengths)
    requires forall i :: 0 <= i < 6 ==> n[i] <= m[i]
    ensures Longest(n) <= Longest(m) && TotalLength(n) <= TotalLength(m)
  {
    MaxMonotone(n[0], n[1], m[0], m[1]);
    MaxMonotone(n[2], n[3], m[2], m[3]);
    MaxMonotone(n[4], n[5], m[4], m[5]);
    MaxMonotone(n[1], n[5], m[1], m[5]);
    MaxMonotone(n[2], n[4], m[2], m[4]);
    hide Max;
    MaxMonotone(Max(n[0], n[1]), Max(n[2], n[3]), Max(m[0], m[1]), Max(m[2], m[3]));
    MaxMonotone(Max(Max(n[0], n[1]), Max(n[2], n[3])), Max(n[4], n[5]), Max(Max(m[0], m[1]), Max(m[2], m[3])), Max(m[4], m[5]));
    MaxMonotone(n[0], Max(n[1], n[5]), m[0], Max(m[1], m[5]));
  }

  /** The kernel helper's budgets, in 1 GHz cycles: each covers its bank's data with 600 us to spare, each is
      below the range check in perform_send, and so the total covers the data of the userspace budget. */
  lemma KernelBudgets(n: Lengths)
    requires ValidLengths(n)
    ensures forall k: int :: 1 <= k <= 3 ==>
              var length := BankLength(n, k);
              && length <= MAX_LENGTH && T.Budget(length) < T.BANK_MAX_CYCLES
              && (length != 0 ==> T.Budget(length) * PRU_HZ == 24 * BIT_CYCLES * length * NS + 600_000 * PRU_HZ)
    ensures (T.Budget(BankLength(n, 1)) + T.Budget(BankLength(n, 2)) + T.Budget(BankLength(n, 3))) * PRU_HZ >= DataCycles(n) * NS
  {
  }
}
