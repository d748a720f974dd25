/** The kernel helper's send transaction, statement by statement. Before every access the helper makes to
    a register or mailbox word, and before it masks the CPU, `Others` lets the firmware and the DMA engines
    take any number of steps, so each contract below holds for every interleaving. Wall-clock readings, CPU
    and PMU checks, the run state of a core that takes no more steps and whether a CPSW control write takes
    effect are arbitrary. */
module Kernel {
  import opened Abi
  import opened CommandBlock
  import opened Firmware
  import opened Invariant
  import opened Interference
  import opened Transaction
  import G = GrantRoutine

  class Helper {
    var h: Hw
    var req: Request
    var ledger: Ledger
    // The cycle counter as each run of the grant routine reads it, and the number of runs so far.
    const counters: nat -> nat -> u32
    var runs: nat
    // Histories: bank grants stored, offsets of mailbox words written, register operations, admission acts.
    ghost var grants: seq<int>
    ghost var writes: seq<int>
    ghost var bus: seq<BusOp>
    ghost var acts: seq<Act>

    /** Anyone else may run. */
    method Others()
      requires Inv(h)
      modifies this`h
      ensures Rely(old(h), h)
    {
      var cs: seq<Choice> := *;
      RunRely(h, cs);
      h := Run(h, cs);
    }

    /** The same, remembering what two earlier states still guarantee. */
    method OthersSince(ghost a: Hw, ghost b: Hw)
      requires Inv(h) && Rely(a, h) && Rely(b, h)
      modifies this`h
      ensures Rely(a, h) && Rely(b, h) && Inv(h)
    {
      hide Inv;
      ghost var before := h;
      Others();
      RelyTransitive(a, before, h);
      RelyTransitive(b, before, h);
      RelyInv(a, h);
    }

    /** Preemption, IRQ and FIQ off. `entry` is the state in which that happens. */
    method Mask() returns (saved: Cpu, ghost entry: Hw)
      requires Outside(h)
      modifies this`h
      ensures Rely(old(h), entry) && Outside(entry) && saved == entry.cpu == old(h).cpu
      ensures h == WithMask(entry) && Inv(h) && !Streaming(h) && Masked(h.cpu)
    {
      Others();
      OutsideRely(old(h), h);
      OwnedRely(old(h), h);
      entry := h;
      saved := h.cpu;
      CalmChange(h, h.dma, Cpu(true, true, saved.preempt + 1));
      h := h.(cpu := Cpu(true, true, saved.preempt + 1));
    }

    method Unmask(saved: Cpu)
      requires Inv(h) && !Streaming(h) && !Masked(saved)
      modifies this`h
      ensures h == old(h).(cpu := saved) && Outside(h)
    {
      CalmChange(h, h.dma, saved);
      h := h.(cpu := saved);
    }

    method MailboxFunctional() returns (ok: bool)
      requires Inv(h)
      modifies this`h
      ensures Rely(old(h), h) && ok == Functional(h.dma.prussClock)
    {
      Others();
      ok := Functional(h.dma.prussClock);
    }

    method Ktime() returns (now: int)
      modifies this`acts
      ensures acts == old(acts) + [Clock(now)]
    {
      now := *;
      acts := acts + [Clock(now)];
    }

    /** Read the eight handshake words one by one. If the words read say that the last request is complete
        and READY or DONE, then nothing moved while the rest was read: the snapshot is the mailbox. */
    method Snapshot()
      requires Inv(h) && Functional(h.dma.prussClock) && Masked(h.cpu)
      modifies this`h, this`req
      ensures Rely(old(h), h) && SameButSnapshot(old(req), req)
      ensures req.requestSeq == h.mb.requestSeq
      ensures req.completionSeq == req.requestSeq ==> Settled(h)
      ensures req.completionSeq == req.requestSeq && (req.status == READY || req.status == DONE) ==>
                Idle(h) && SnapshotExact(req, h.mb)
      ensures Parked(old(h)) ==> SnapshotExact(req, old(h).mb)
    {
      hide Inv, Honest, Streaming, Frozen;
      ghost var start := h;
      RelyReflexive(h);
      OthersSince(start, start);
      req := req.(requestSeq := h.mb.requestSeq);
      OthersSince(start, start);
      req := req.(completionSeq := h.mb.completionSeq);
      ghost var middle := h;
      RelyReflexive(h);
      OthersSince(start, middle);
      req := req.(status := h.mb.status);
      if req.completionSeq == req.requestSeq && (req.status == READY || req.status == DONE) {
        SettledMeansIdle(h);
      }
      RelyReflexive(h);
      ghost var late := h;
      OthersSince(start, late);
      req := req.(errorDetail := h.mb.errorDetail);
      OthersSince(start, late);
      req := req.(acceptedSeq := h.mb.acceptedSeq);
      OthersSince(start, late);
      req := req.(bankReady := h.mb.bankReady);
      OthersSince(start, late);
      req := req.(bankGrant := h.mb.bankGrant);
      OthersSince(start, late);
      req := req.(bankDone := h.mb.bankDone);
    }

    /** validate. */
    method Validate() returns (error: int)
      requires Inv(h) && Functional(h.dma.prussClock) && Masked(h.cpu)
      modifies this`h, this`req
      ensures Rely(old(h), h) && SameButSnapshot(old(req), req)
      ensures error == 0 ==> Idle(h) && Settled(h) && KernelCheck(req.input, h.mb) == 0
      ensures Parked(old(h)) ==> error == KernelCheck(req.input, old(h).mb)
    {
      hide Inv, Honest, Streaming, CpswPaused, IdleUpTo;
      ghost var start := h;
      RelyReflexive(h);
      if !InputAcceptable(req.input) {
        return EINVAL;
      }
      OthersSince(start, start);
      if h.mb.magic != COMMAND_MAGIC { return EPROTO; }
      OthersSince(start, start);
      if h.mb.abiVersion != ABI_VERSION { return EPROTO; }
      OthersSince(start, start);
      if h.mb.profile != req.input.profile { return EPROTO; }
      for i := 0 to 6
        modifies this`h
        invariant Rely(start, h) && Inv(h) && req == old(req)
        invariant forall j :: 0 <= j < i ==> h.mb.lengths[j] == req.input.lengths[j]
      {
        OthersSince(start, start);
        if h.mb.lengths[i] != req.input.lengths[i] { return EPROTO; }
      }
      assert h.mb.lengths == req.input.lengths;
      ghost var before := h;
      Snapshot();
      RelyTransitive(start, before, h);
      if req.errorDetail != 0 || req.status == ERROR { return EPROTO; }
      if req.status == RUNNING || req.status == WAIT_BANK || req.requestSeq != req.completionSeq { return EBUSY; }
      if (req.status != READY && req.status != DONE) || req.requestSeq != req.input.previousSeq { return EPROTO; }
      var lastBank := LastBank(req.input.lengths);
      if req.bankReady != 0 { return EPROTO; }
      if req.status == READY {
        if req.requestSeq != 0 || req.acceptedSeq != 0 || req.bankGrant != 0 || req.bankDone != 0 { return EPROTO; }
      } else if req.acceptedSeq != req.requestSeq || req.bankGrant != lastBank || req.bankDone != lastBank {
        return EPROTO;
      }
      return 0;
    }

    /** other_dma_idle: two passes over the engines in order, each clock word before its status word. */
    method OtherDmaIdle() returns (error: int)
      requires Inv(h) && Masked(h.cpu)
      modifies this`h
      ensures Rely(old(h), h)
      ensures error == 0 || error == EAGAIN
      ensures error == 0 ==> EnginesIdle(h.dma)
    {
      hide Inv, Rely, IdleUpTo;
      ghost var start := h;
      RelyReflexive(h);
      for pass := 0 to 2
        invariant Rely(start, h) && Inv(h)
        invariant pass > 0 ==> IdleUpTo(h.dma, 6)
      {
        NoneChecked(h);
        for i := 0 to 6
          invariant Rely(start, h) && Inv(h)
          invariant IdleUpTo(h.dma, i)
        {
          ghost var before := h;
          OwnedRely(start, before);
          error := EngineCheck(i);
          RelyTransitive(start, before, h);
          RelyInv(start, h);
          if error != 0 { return; }
        }
      }
      return 0;
    }

    /** One engine of a pass: its clock word, and only when that says enabled its status. */
    method EngineCheck(i: nat) returns (error: int)
      requires Inv(h) && Masked(h.cpu) && i < 6 && IdleUpTo(h.dma, i)
      modifies this`h
      ensures Rely(old(h), h)
      ensures error == 0 || error == EAGAIN
      ensures error == 0 ==> IdleUpTo(h.dma, i + 1)
    {
      hide Inv, Honest, Streaming, Parked, Settled, CpswPaused, EngineOff, EngineOn, EngineBusy;
      ghost var start := h;
      RelyReflexive(h);
      OthersSince(start, start);
      var clock := h.dma.engineClocks[i];
      if !EngineOff(i, clock) {
        if !EngineOn(clock) { return EAGAIN; }
        ghost var a := h;
        RelyReflexive(h);
        OthersSince(start, a);
        if EngineBusy(i, h.dma.engineStatus[i]) { return EAGAIN; }
      }
      assert EngineIdle(i, h.dma.engineClocks[i], h.dma.engineStatus[i]);
      assert IdleUpTo(h.dma, i);
      error := 0;
    }

    /** wait_gate: poll for bank `ordinal`'s readiness, or with `final` for the completion, unmasked
        between polls, at most 200 times. */
    method WaitGate(ordinal: Bank, final: bool) returns (error: int)
      requires Outside(h) && req.requestSeq == h.mb.requestSeq
      modifies this`h
      ensures Rely(old(h), h) && Outside(h)
      ensures error in {0, ETIMEDOUT, ENODEV, EIO}
      ensures error == 0 && !final ==> ReadyAt(h, ordinal)
      ensures error == 0 && final ==> Settled(h) && (Truthful(old(h)) ==> Over(h))
    {
      hide Inv, Honest, Streaming, CpswPaused, IdleUpTo, Truthful, Over;
      ghost var start := h;
      RelyReflexive(h);
      var now: int := *;
      var deadline := now + if final then FINAL_TIMEOUT_NS else GATE_TIMEOUT_NS;
      for attempts := 0 to 200
        invariant Rely(start, h) && Outside(h)
      {
        now := *;
        if now >= deadline { return ETIMEDOUT; }
        ghost var before := h;
        var outcome, found := ObserveGate(ordinal, final);
        if Truthful(start) { TruthfulRely(start, before); }
        RelyTransitive(start, before, h);
        if outcome != 0 { return outcome; }
        if found {
          now := *;
          return if now < deadline then 0 else ETIMEDOUT;
        }
        before := h;
        Others();
        RelyTransitive(start, before, h);
      }
      return ETIMEDOUT;
    }

    /** One masked observation of wait_gate (its loop body between the two clock readings). */
    method ObserveGate(ordinal: Bank, final: bool) returns (error: int, found: bool)
      requires Outside(h) && req.requestSeq == h.mb.requestSeq
      modifies this`h
      ensures Rely(old(h), h) && Outside(h)
      ensures error in {0, ENODEV, EIO}
      ensures found && !final ==> ReadyAt(h, ordinal)
      ensures found && final ==> Settled(h) && (Truthful(old(h)) ==> Over(h))
    {
      hide Inv, Honest, Streaming, CpswPaused, IdleUpTo, Truthful, Over;
      ghost var start := h;
      var flags;
      ghost var entry;
      flags, entry := Mask();
      ghost var masked := h;
      RelyReflexive(h);
      OthersSince(masked, masked);
      if !Functional(h.dma.prussClock) {
        BracketRely(start, entry, h);
        Unmask(flags);
        return ENODEV, false;
      }
      OthersSince(masked, masked);
      var status := h.mb.status;
      ghost var seen := h;
      if status == DONE && Truthful(start) { SeenOver(start, entry, seen); }
      RelyReflexive(h);
      OthersSince(masked, seen);
      var detail := h.mb.errorDetail;
      OthersSince(masked, seen);
      var accepted := h.mb.acceptedSeq;
      OthersSince(masked, seen);
      if final {
        var completed := h.mb.completionSeq;
        OwnedRely(masked, h);
        OwnedRely(start, entry);
        found := status == DONE && completed == req.requestSeq && accepted == req.requestSeq;
        if found && Truthful(start) { OverRely(seen, h); }
      } else {
        var ready := h.mb.bankReady;
        found := status == WAIT_BANK && ready == ordinal && accepted == req.requestSeq;
        if found {
          ReadyMeansGate(h, ordinal);
        }
      }
      BracketRely(start, entry, h);
      TruthfulCpu(h, h.(cpu := flags));
      Unmask(flags);
      if detail != 0 || status == ERROR { return EIO, false; }
      error := 0;
    }

    /** One timing loop of the grant routine, reading the run's counter from its i-th sample on. */
    method TimerLoop(counter: nat -> u32, start: u32, i: nat, target: u32, cap: nat) returns (elapsed: u32, next: nat)
      requires Inv(h) && cap > 0
      modifies this`h
      ensures Rely(old(h), h)
      ensures (elapsed, next) == G.Timer(counter, start, i, target, cap)
    {
      hide Inv, Honest, Streaming, CpswPaused, IdleUpTo, Parked, Settled;
      ghost var begin := h;
      RelyReflexive(h);
      var left := cap;
      next := i;
      while true
        invariant Rely(begin, h) && Inv(h) && left > 0
        invariant G.Timer(counter, start, i, target, cap) == G.Timer(counter, start, next, target, left)
        decreases left
      {
        OthersSince(begin, begin);
        elapsed := G.Sub(counter(next), start);
        next := next + 1;
        if elapsed >= target { return; }
        left := left - 1;
        if left == 0 {
          elapsed := G.Set31(elapsed);
          return;
        }
      }
    }

    /** The granting half of dld_quiet_bank: store the grant, time the bank, observe bank_done once. */
    method GrantAndTime(counter: nat -> u32, i: nat, ordinal: Bank, cycles: u32, cap: nat)
      returns (observed: u32, elapsed: u32, next: nat)
      requires Inv(h) && !Streaming(h) && Quiet(h) && ReadyAt(h, ordinal) && Honest(h) && cap > 0
      modifies this`h, this`grants, this`writes
      ensures Inv(h) && Honest(h)
      ensures grants == old(grants) + [ordinal] && writes == old(writes) + [60]
      ensures (elapsed, next) == G.Timer(counter, counter(i), i + 1, cycles, cap)
      ensures SameOwned(old(h).(mb := old(h).mb.(bankGrant := ordinal)), h) && Frozen(old(h).dma, h.dma)
      ensures observed == ordinal ==> !Streaming(h)
      ensures observed == h.mb.bankDone
    {
      hide Inv, Honest, Streaming, Settled, Frozen;
      ghost var begin := h;
      GateIsParked(h, ordinal);
      Others();
      QuietRely(begin, h);
      RelyFrozen(begin, h);
      GrantKeepsInv(h, ordinal);
      h := h.(mb := h.mb.(bankGrant := ordinal));
      grants := grants + [ordinal];
      writes := writes + [60];
      ghost var granted := h;
      RelyReflexive(h);
      OthersSince(granted, granted);
      ghost var before := h;
      elapsed, next := TimerLoop(counter, counter(i), i + 1, cycles, cap);
      RelyTransitive(granted, before, h);
      OthersSince(granted, granted);
      RelyFrozen(granted, h);
      FrozenThen(begin.dma, granted.dma, h.dma);
      observed := h.mb.bankDone;
      if observed == ordinal {
        DoneMeansOver(h, ordinal);
      }
    }

    /** dld_quiet_bank: warm up the loop without a grant; only then grant, time and observe. */
    method BankEntry(ordinal: Bank, cycles: u32, cap: nat) returns (observed: u32, elapsed: u32)
      requires Inv(h) && !Streaming(h) && Quiet(h) && ReadyAt(h, ordinal) && Honest(h) && cap > 0
      modifies this`h, this`runs, this`grants, this`writes
      ensures Inv(h) && Honest(h) && Frozen(old(h).dma, h.dma) && runs == old(runs) + 1
      ensures var o := G.Routine(G.World(counters(old(runs)), observed), 0, cycles, cap);
              && o.elapsed == elapsed && o.observed == observed
              && grants == old(grants) + (if o.granted then [ordinal] else [])
              && writes == old(writes) + (if o.granted then [60] else [])
              && (if o.granted then SameOwned(old(h).(mb := old(h).mb.(bankGrant := ordinal)), h) && observed == h.mb.bankDone
                  else h == old(h).(dma := h.dma))
              && (!o.granted || observed == ordinal ==> !Streaming(h))
    {
      hide Inv, Honest, Streaming, IdleUpTo, Settled, CpswPaused, G.Timer;
      ghost var begin := h;
      GateIsParked(h, ordinal);
      RelyReflexive(h);
      OthersSince(begin, begin);
      var counter := counters(runs);
      runs := runs + 1;
      ghost var before := h;
      var next;
      elapsed, next := TimerLoop(counter, counter(0), 1, G.WARM_CYCLES, G.WARM_READS);
      RelyTransitive(begin, before, h);
      if G.Has31(elapsed) {
        return 0, G.Set30(elapsed);
      }
      QuietRely(begin, h);
      observed, elapsed, next := GrantAndTime(counter, next, ordinal, cycles, cap);
    }

    /** Others run while the CPU is masked and the firmware waits: only DMA engines can have moved. */
    method OthersHeld(ghost a: Hw)
      requires Held(a, h)
      modifies this`h
      ensures Held(a, h) && Frozen(old(h).dma, h.dma)
    {
      ghost var before := h;
      assert Inv(h);
      hide Inv, Streaming;
      Others();
      HeldRely(a, before, h);
    }

    /** Write the CPSW DMA control word. The write may not take. */
    method WriteCpsw(value: bv32)
      requires Inv(h) && !Streaming(h)
      modifies this`h, this`bus
      ensures Kept(old(h), h) && bus == old(bus) + [WroteCpsw(value)]
      ensures Masked(old(h).cpu) ==> h.dma.prussClock == old(h).dma.prussClock && h.dma.cpswClock == old(h).dma.cpswClock
    {
      hide Inv, Streaming, Honest, Settled, Parked;
      ghost var before := h;
      Others();
      WiredInv(h);
      var took: bool := *;
      var other: bv32 := *;
      ghost var g := h;
      h := h.(dma := h.dma.(cpswControl := if took then value else other));
      DmaKept(before, g, h.dma);
      bus := bus + [WroteCpsw(value)];
    }

    /** The same while the firmware waits. */
    method WriteCpswHeld(value: bv32, ghost a: Hw)
      requires Held(a, h)
      modifies this`h, this`bus
      ensures Held(a, h) && bus == old(bus) + [WroteCpsw(value)]
    {
      hide Inv, Streaming, IdleUpTo, CpswPaused, Honest, Settled;
      WriteCpsw(value);
    }

    /** Poll the CPDMA until it reports idle. Reading the status clears its error fields, so an error is
        reported from the very reading that shows it: `readings` are all the status words read, none but the
        last shows an error or idle, and -EIO is returned iff the last one shows an error. */
    method DrainCpsw(ghost a: Hw) returns (error: int, ghost readings: seq<bv32>)
      requires Held(a, h) && CommandsIdle(h.dma.cpswControl)
      modifies this`h
      ensures Held(a, h) && h.dma.cpswControl == old(h).dma.cpswControl
      ensures error in {0, EIO, ETIMEDOUT} && 0 < |readings| <= 100_000
      ensures forall i :: 0 <= i < |readings| - 1 ==> !ReportsError(readings[i]) && !ReportsIdle(readings[i])
      ensures error == EIO <==> ReportsError(readings[|readings| - 1])
      ensures error == 0 <==> !ReportsError(readings[|readings| - 1]) && ReportsIdle(readings[|readings| - 1])
      ensures error == 0 ==> CpswPaused(h.dma)
    {
      hide Inv, Streaming, IdleUpTo, Held, Parked, Honest, Settled, CommandsIdle, ReportsIdle, ReportsError, WithoutErrors, Rely;
      error, readings := 0, [];
      var status: bv32 := 0;
      var drainStart: u32 := *;
      var attempts := 0;
      while attempts < 100_000
        invariant attempts <= 100_000 && error == 0 && |readings| == attempts
        invariant Held(a, h) && h.dma.cpswControl == old(h).dma.cpswControl
        invariant forall i :: 0 <= i < |readings| ==> !ReportsError(readings[i]) && !ReportsIdle(readings[i])
        invariant attempts > 0 ==> status == readings[attempts - 1]
      {
        OthersHeld(a);
        status := h.dma.cpswStatus;
        readings := readings + [status];
        HeldStatus(a, h, WithoutErrors(status));
        h := h.(dma := h.dma.(cpswStatus := WithoutErrors(status)));
        if ReportsError(status) { error := EIO; break; }
        if ReportsIdle(status) { break; }
        var now: u32 := *;
        if G.Sub(now, drainStart) >= DRAIN_CYCLES { error := ETIMEDOUT; break; }
        attempts := attempts + 1;
      }
      if attempts == 100_000 { error := ETIMEDOUT; }
      if error != 0 || !ReportsIdle(status) {
        if error == 0 { error := ETIMEDOUT; }
        return;
      }
      ControlBits(h.dma.cpswControl, status);
      PausedByBits(h.dma);
    }

    /** try_bank up to the grant: qualify CPU, PMU, clocks and engines, then pause CPSW. */
    method OpenWindow(ghost a: Hw) returns (error: int, saved: bv32, changed: bool)
      requires h == a && Held(a, a)
      modifies this`h, this`bus, this`req
      ensures Held(a, h)
      ensures req == old(req).(stage := req.stage)
      ensures bus == old(bus) + (if changed then [WroteCpsw(WithIdle(saved))] else [])
      ensures changed ==> saved == a.dma.cpswControl && !CommandsIdle(saved) && Functional(h.dma.prussClock)
      ensures !changed ==> h.dma.cpswControl == a.dma.cpswControl
      ensures error == 0 ==> changed && Quiet(h)
      ensures error in {0, ERANGE, ENODEV, EAGAIN, EBUSY, EIO, ETIMEDOUT}
    {
      hide Inv, Streaming, IdleUpTo, Honest, Settled, Rely, Parked, CommandsIdle, ReportsIdle, WithIdle, Functional, Quiet;
      saved, changed := 0, false;
      var fixedCpu: bool := *;
      if !fixedCpu { req := req.(stage := CheckingCpu); return ERANGE, saved, changed; }
      var pmuReady: bool := *;
      if !pmuReady { req := req.(stage := CheckingPmu); return ENODEV, saved, changed; }
      OthersHeld(a);
      if !Functional(h.dma.prussClock) { return ENODEV, saved, changed; }
      error := OtherDmaIdleHeld(a);
      if error != 0 { return; }
      OthersHeld(a);
      if !Functional(h.dma.cpswClock) { return EAGAIN, saved, changed; }
      OthersHeld(a);
      var control := h.dma.cpswControl;
      if CommandsIdle(control) { return EBUSY, saved, changed; }
      saved, changed := control, true;
      error := PauseCpsw(saved, a);
      if error == 0 { req := req.(stage := InBank); }
    }

    /** Assert CMD_IDLE, verify it, drain, and check the other engines again. */
    method PauseCpsw(saved: bv32, ghost a: Hw) returns (error: int)
      requires Held(a, h)
      modifies this`h, this`bus
      ensures Held(a, h)
      ensures bus == old(bus) + [WroteCpsw(WithIdle(saved))]
      ensures error in {0, EAGAIN, EIO, ETIMEDOUT}
      ensures error == 0 ==> Quiet(h)
    {
      hide Inv, Streaming, IdleUpTo, Honest, Settled, Rely, Parked, CommandsIdle, ReportsIdle, WithIdle, Functional;
      WriteCpswHeld(WithIdle(saved), a);
      OthersHeld(a);
      if h.dma.cpswControl != WithIdle(saved) { return EIO; }
      ControlBits(saved, 0);
      ghost var readings;
      error, readings := DrainCpsw(a);
      if error != 0 { return; }
      error := OtherDmaIdleHeld(a);
    }

    method OtherDmaIdleHeld(ghost a: Hw) returns (error: int)
      requires Held(a, h)
      modifies this`h
      ensures Held(a, h) && Frozen(old(h).dma, h.dma)
      ensures error == 0 || error == EAGAIN
      ensures error == 0 ==> EnginesIdle(h.dma)
    {
      ghost var before := h;
      hide Inv, Streaming, Rely, EnginesIdle, Frozen;
      error := OtherDmaIdle();
      HeldRely(a, before, h);
    }

    /** The end of try_bank: stop the PRU first if a granted bank failed, then give CPSW back. */
    method CloseWindow(ordinal: Bank, failure: int, saved: bv32, changed: bool) returns (error: int)
      requires Inv(h) && Masked(h.cpu)
      requires Streaming(h) ==> failure != 0 && ordinal - 1 in req.granted
      requires failure != 0 && ordinal - 1 in req.granted ==> Functional(h.dma.prussClock)
      modifies this`h, this`bus, this`req, this`writes
      ensures Inv(h) && !Streaming(h) && h.cpu == old(h).cpu
      ensures var broken := changed && h.dma.cpswControl != saved;
              && error == (if broken then EIO else failure)
              && req == old(req).(restoreFailed := old(req).restoreFailed + (if broken then {ordinal - 1} else {}))
      ensures var stopped := failure != 0 && ordinal - 1 in req.granted;
              && bus == old(bus) + (if stopped then [Disabled(0), WroteMagic] else []) + (if changed then [WroteCpsw(saved)] else [])
              && writes == old(writes) + (if stopped then [0] else [])
              && (if stopped then !h.pru.running && h.mb.magic == 0 else Kept(old(h), h))
              && (!stopped && !changed ==> h == old(h))
    {
      hide Inv, Streaming, Honest, Settled, Parked, IdleUpTo, CpswPaused, Functional;
      error := failure;
      ghost var begin := h;
      RelyReflexive(h);
      if failure != 0 && ordinal - 1 in req.granted {
        var functional := MailboxFunctional();
        RelyInv(begin, h);
        OwnedRely(begin, h);
        if functional { StopPru(); }
      }
      ghost var middle := h;
      if changed {
        WriteCpsw(saved);
        ghost var written := h;
        Others();
        if h.dma.cpswControl != saved {
          req := req.(restoreFailed := req.restoreFailed + {ordinal - 1});
          error := EIO;
        }
        KeptTransitive(middle, written, h);
      }
    }

    /** Withdraw PRU0: clear its enable bit, then invalidate the mailbox. */
    method StopPru()
      requires Inv(h) && Functional(h.dma.prussClock)
      modifies this`h, this`bus, this`writes
      ensures Inv(h) && !Streaming(h) && !h.pru.running && h.mb.magic == 0 && h.cpu == old(h).cpu
      ensures bus == old(bus) + [Disabled(0), WroteMagic] && writes == old(writes) + [0]
    {
      hide Inv, Streaming, Honest, Settled, Parked, IdleUpTo, CpswPaused;
      Others();
      StopKeepsInv(h);
      h := h.(pru := h.pru.(running := false));
      bus := bus + [Disabled(0)];
      ghost var before := h;
      Others();
      RelyCalm(before, h);
      MagicKeepsInv(h);
      h := h.(mb := h.mb.(magic := 0));
      StopKeepsInv(h);
      assert h.(pru := h.pru.(running := false)) == h;
      bus := bus + [WroteMagic];
      writes := writes + [0];
    }

    /** The environment assumption on the cycle counter: between two consecutive reads of one granted timing
        loop it advances by less than `PACE`. Nothing is assumed of its reads anywhere else. */
    ghost predicate PacedRuns() {
      forall r: nat, cycles: u32 {:trigger G.PacedGrant(counters(r), 0, cycles, ITERATION_CAP, PACE)} ::
        cycles < BANK_MAX_CYCLES ==> G.PacedGrant(counters(r), 0, cycles, ITERATION_CAP, PACE)
    }

    /** What the result of a run tells of it. */
    lemma RunReports(run: nat, observed: u32, cycles: u32)
      requires PacedRuns() && cycles < BANK_MAX_CYCLES
      ensures var o := G.Routine(G.World(counters(run), observed), 0, cycles, ITERATION_CAP);
              && (o.granted <==> !G.Has30(o.elapsed)) && (!G.Has31(o.elapsed) ==> o.granted && o.elapsed >= cycles)
              && (!o.granted ==> G.Has31(o.elapsed) && o.observed == 0)
    {
      hide G.Routine, G.PacedGrant;
      assert G.PacedGrant(counters(run), 0, cycles, ITERATION_CAP, PACE);
      G.ResultFlags(G.World(counters(run), observed), 0, cycles, ITERATION_CAP);
      G.PacedFlag(G.World(counters(run), observed), 0, cycles, ITERATION_CAP, PACE);
    }

    /** Inside the open window: run the routine and classify its result. The granted mask says exactly
        whether the grant was stored, and without a failure the bank is over and at least its budget of
        cycles has passed. */
    method GrantBank(ordinal: Bank) returns (error: int)
      requires Inv(h) && !Streaming(h) && Quiet(h) && ReadyAt(h, ordinal) && Honest(h)
      requires Fresh(req, ordinal) && PacedRuns()
      modifies this`h, this`runs, this`grants, this`writes, this`req
      ensures Inv(h) && Honest(h) && Frozen(old(h).dma, h.dma)
      ensures GrantFields(ordinal, old(req), req, error) && error in {0, ETIME, ETIMEDOUT}
      ensures var granted := ordinal - 1 in req.granted;
              && grants == old(grants) + (if granted then [ordinal] else [])
              && writes == old(writes) + (if granted then [60] else [])
              && (if granted then SameOwned(old(h).(mb := old(h).mb.(bankGrant := ordinal)), h)
                  else h == old(h).(dma := h.dma))
              && (error == 0 || !granted ==> !Streaming(h))
    {
      hide Inv, Honest, Streaming, G.Timer, G.Routine, SameOwned, Quiet, PacedRuns;
      var index := ordinal - 1;
      var cycles := req.budget[index];
      var observed, elapsed := BankEntry(ordinal, cycles, ITERATION_CAP);
      RunReports(old(runs), observed, cycles);
      req := req.(elapsed := req.elapsed[index := elapsed % G.BIT30]);
      if !G.Has30(elapsed) {
        req := req.(granted := req.granted + {index});
      }
      req := req.(bankDone := observed);
      if G.Has31(elapsed) {
        req := req.(timerFault := req.timerFault + {index});
        error := ETIME;
      } else if observed != ordinal {
        error := ETIMEDOUT;
      } else {
        req := req.(completed := req.completed + {index});
        error := 0;
      }
    }

    /** try_bank up to its common exit. */
    method OpenAndGrant(ordinal: Bank) returns (failure: int, saved: bv32, changed: bool)
      requires Inv(h) && !Streaming(h) && Masked(h.cpu) && ReadyAt(h, ordinal) && Honest(h) && Fresh(req, ordinal) && PacedRuns()
      modifies this`h, this`runs, this`grants, this`writes, this`req, this`bus
      ensures Inv(h) && h.cpu == old(h).cpu
      ensures BankTried(ordinal, old(h), h, old(req), req, failure)
      ensures if changed then saved == old(h).dma.cpswControl && Functional(h.dma.prussClock)
              else h.dma.cpswControl == old(h).dma.cpswControl && ordinal - 1 !in req.granted && failure != 0
      ensures var granted := ordinal - 1 in req.granted;
              && grants == old(grants) + (if granted then [ordinal] else [])
              && writes == old(writes) + (if granted then [60] else [])
              && bus == old(bus) + (if changed then [WroteCpsw(WithIdle(saved))] else [])
    {
      hide Inv, Honest, Streaming, Quiet, Settled, CommandsIdle, WithIdle, Functional, Parked, IdleUpTo, CpswPaused,
           SameOwned, Kept, EnginesIdle, PacedRuns, Masked;
      ghost var begin := h;
      GateIsParked(h, ordinal);
      failure, saved, changed := OpenWindow(h);
      if failure == 0 {
        ghost var window := h;
        HonestDma(begin, h);
        failure := GrantBank(ordinal);
        GrantedCpu(window, h, ordinal);
        if ordinal - 1 in req.granted { SameOwnedDma(begin, window, h, ordinal); }
      }
    }

    /** try_bank between masking and unmasking the CPU. */
    method ProtectedBank(ordinal: Bank) returns (error: int, ghost stopped: bool)
      requires Inv(h) && !Streaming(h) && Masked(h.cpu) && ReadyAt(h, ordinal) && Honest(h) && Fresh(req, ordinal) && PacedRuns()
      modifies this`h, this`runs, this`grants, this`writes, this`req, this`bus
      ensures Inv(h) && !Streaming(h)
      ensures BankOutcome(ordinal, old(h), h, old(req), req, error, stopped)
      ensures CpswRestored(ordinal, old(h).dma, h.dma, req, error)
      ensures Logged(ordinal, old(h).dma.cpswControl, req, stopped,
                     Histories(old(grants), old(writes), old(bus)), Histories(grants, writes, bus))
    {
      hide Inv, Honest, Streaming, WithIdle, Functional, SameOwned, Kept, BankOver, PacedRuns, Masked, Logged;
      ghost var begin := h;
      var failure, saved, changed := OpenAndGrant(ordinal);
      ghost var grantedReq := req;
      stopped := failure != 0 && ordinal - 1 in req.granted;
      ghost var before := h;
      error := CloseWindow(ordinal, failure, saved, changed);
      FieldsTried(ordinal, old(req), grantedReq, req, failure);
      hide BankFields, GrantFields;
      LogOf(ordinal, req, stopped, begin.dma.cpswControl,
            Histories(old(grants), old(writes), old(bus)), Histories(grants, writes, bus));
      if failure == 0 {
        BankClosed(begin, begin, before, h, ordinal);
      } else if ordinal - 1 !in req.granted {
        GateKept(before, h, ordinal);
      }
    }

    /** try_bank. On every exit the CPU state is as on entry. Either nothing was granted and, apart from
        DMA activity, the hardware is as it was; or the bank was granted and is over; or it was granted
        and failed (`stopped`): then the PRU was stopped and the mailbox invalidated before CPSW was given
        back. CPSW ends with the control word it had on `entry`, when the CPU was masked, unless the failed
        restoration is reported with -EIO. */
    method TryBank(ordinal: Bank) returns (error: int, ghost stopped: bool, ghost entry: Hw)
      requires Outside(h) && ReadyAt(h, ordinal) && Honest(h) && Fresh(req, ordinal) && PacedRuns()
      modifies this`h, this`runs, this`grants, this`writes, this`req, this`bus
      ensures Outside(h) && h.cpu == old(h).cpu && entry == old(h).(dma := entry.dma)
      ensures BankOutcome(ordinal, old(h), h, old(req), req, error, stopped)
      ensures CpswRestored(ordinal, entry.dma, h.dma, req, error)
      ensures Logged(ordinal, entry.dma.cpswControl, req, stopped,
                     Histories(old(grants), old(writes), old(bus)), Histories(grants, writes, bus))
    {
      hide Inv, Streaming, Quiet, Logged;
      ghost var begin := h;
      req := req.(stage := CheckingDma);
      var flags;
      flags, entry := Mask();
      GateRely(begin, entry, ordinal);
      HonestDma(begin, h);
      error, stopped := ProtectedBank(ordinal);
      Unmask(flags);
    }

    /** other_dma_attempt. */
    method OtherDmaAttempt() returns (error: int)
      requires Outside(h)
      modifies this`h
      ensures Rely(old(h), h) && Outside(h)
    {
      hide Inv, Streaming, Rely;
      ghost var begin := h;
      var flags;
      ghost var entry;
      flags, entry := Mask();
      error := OtherDmaIdle();
      BracketRely(begin, entry, h);
      Unmask(flags);
    }

    ghost function Now(): View
      reads this
    {
      View(h, req, grants, writes)
    }

    /** One call through the admission operations table. */
    method Attempt(ops: Ops) returns (result: int, granted: bool, ghost stopped: bool)
      requires MayAttempt(ops, Now()) && PacedRuns()
      modifies this`h, this`runs, this`grants, this`writes, this`req, this`bus, this`acts
      ensures acts == old(acts) + [Tried(granted, result)]
      ensures AttemptOutcome(ops, old(Now()), Now(), result, granted, stopped)
    {
      hide Inv, Streaming, Honest, Rely, BankOver;
      match ops {
        case OtherDma =>
          result := OtherDmaAttempt();
          granted, stopped := false, false;
        case BankGrant(ordinal) =>
          ghost var entry;
          result, stopped, entry := TryBank(ordinal);
          granted := ordinal - 1 in req.granted;
      }
      acts := acts + [Tried(granted, result)];
    }

    /** dld_admission_wait: bounded retry of attempts that granted nothing. Whatever the clock and the
        attempts do, the record of what happened is one that AdmissionRules allows, and the state is that of one
        single attempt. */
    method AdmissionWait(ops: Ops, idleOnly: bool)
      returns (result: int, granted: bool, ghost stopped: bool, ghost first: int, ghost retries: seq<int>, ghost ending: Ending)
      requires MayAttempt(ops, Now()) && PacedRuns()
      requires idleOnly ==> ops.OtherDma?
      modifies this`h, this`runs, this`grants, this`writes, this`req, this`bus, this`acts
      ensures acts == old(acts) + Record(first, retries, ending, result, granted)
      ensures AdmissionRules(idleOnly, result, granted, first, retries, ending)
      ensures AttemptOutcome(ops, old(Now()), Now(), result, granted, stopped)
    {
      hide MayAttempt, AttemptOutcome, Retries, PacedRuns;
      ghost var begin := Now();
      NoRetries();
      granted, stopped := false, false;
      WaitingBegins(ops, begin);
      var begun := Ktime();
      first, retries := begun, [];
      var deadline := begun + ADMISSION_TIMEOUT_NS;
      for attempts := 0 to ADMISSION_MAX_ATTEMPTS
        invariant AttemptOutcome(ops, begin, Now(), EAGAIN, false, false) && !granted && !stopped
        invariant |retries| == attempts && forall i :: 0 <= i < |retries| ==> retries[i] < deadline
        invariant acts == old(acts) + ([Clock(first)] + Retries(retries))
      {
        var now := Ktime();
        if now >= deadline {
          Rejected(ops, begin, Now());
          return ETIMEDOUT, granted, stopped, first, retries, Expired(now);
        }
        WaitingReady(ops, begin, Now());
        ghost var before := Now();
        result, granted, stopped := Attempt(ops);
        AttemptAgain(ops, begin, before, Now(), result, granted, stopped);
        if result == EAGAIN && !granted {
          acts := acts + [Paused];
          RetriesNext(retries, now);
          retries := retries + [now];
          Pause(ops, begin);
          continue;
        }
        if result == 0 && idleOnly {
          var late := Ktime();
          if late >= deadline { result := ETIMEDOUT; }
          return result, granted, stopped, first, retries, Observed(now, late);
        }
        return result, granted, stopped, first, retries, Terminal(now);
      }
      Rejected(ops, begin, Now());
      return ETIMEDOUT, granted, stopped, first, retries, Exhausted;
    }

    /** admission_pause. */
    method Pause(ops: Ops, ghost begin: View)
      requires MayAttempt(ops, begin) && AttemptOutcome(ops, begin, Now(), EAGAIN, false, false)
      modifies this`h
      ensures AttemptOutcome(ops, begin, Now(), EAGAIN, false, false)
    {
      ghost var before := Now();
      assert Inv(h);
      hide MayAttempt, AttemptOutcome;
      Others();
      PauseAgain(ops, begin, before, h);
    }

    // -------------------------------------------------------------- failed_frame_cleanup

    /** First window: invalidate the mailbox and disable both cores before polling either. The PRUSS clock
        word on `entry` to that window, when the CPU was masked, decides. */
    method Withdraw() returns (functional: bool, ghost entry: Hw)
      requires Outside(h)
      modifies this`h, this`bus, this`writes, this`req
      ensures Outside(h) && h.cpu == old(h).cpu
      ensures Rely(old(h), entry) && functional == Functional(entry.dma.prussClock)
      ensures functional ==> !h.pru.running && h.mb.magic == 0
      ensures !functional ==> Rely(old(h), h)
      ensures bus == old(bus) + (if functional then [WroteMagic, Disabled(0), Disabled(1)] else [])
      ensures writes == old(writes) + (if functional then [0] else [])
      ensures req == old(req).(cleanupFailed := old(req).cleanupFailed + (if functional then {} else {0}))
    {
      hide Inv, Streaming, Rely;
      ghost var begin := h;
      var flags;
      flags, entry := Mask();
      ghost var masked := h;
      functional := MailboxFunctional();
      RelyFrozen(masked, h);
      BracketRely(begin, entry, h);
      OwnedRely(masked, h);
      if functional {
        DisableBoth();
      } else {
        req := req.(cleanupFailed := req.cleanupFailed + {0});
      }
      Unmask(flags);
    }

    method DisableBoth()
      requires Inv(h) && !Streaming(h)
      modifies this`h, this`bus, this`writes
      ensures Inv(h) && !Streaming(h) && !h.pru.running && h.mb.magic == 0 && h.cpu == old(h).cpu
      ensures bus == old(bus) + [WroteMagic, Disabled(0), Disabled(1)] && writes == old(writes) + [0]
    {
      hide Inv, Streaming, Rely;
      ghost var before := h;
      Others();
      RelyCalm(before, h);
      RelyInv(before, h);
      OwnedRely(before, h);
      MagicKeepsInv(h);
      h := h.(mb := h.mb.(magic := 0));
      bus := bus + [WroteMagic];
      writes := writes + [0];
      before := h;
      Others();
      RelyInv(before, h);
      OwnedRely(before, h);
      StopKeepsInv(h);
      h := h.(pru := h.pru.(running := false));
      bus := bus + [Disabled(0)];
      before := h;
      Others();
      RelyCalm(before, h);
      RelyInv(before, h);
      StoppedStays(before, h);
      bus := bus + [Disabled(1)];
    }

    /** A core's run state. A core 0 that may still take steps reads as running; one that has been disabled or
        has halted reads either way; core 1 is not modelled. */
    method RunState(core: nat) returns (running: bool)
      requires Inv(h)
      modifies this`h, this`bus
      ensures Rely(old(h), h) && bus == old(bus) + [SawCore(core, running)]
      ensures core == 0 && !running ==> CanReadStopped(h)
    {
      Others();
      running := *;
      if core == 0 && !CanReadStopped(h) { running := true; }
      bus := bus + [SawCore(core, running)];
    }

    /** Write 0 to a core's control register: disabled and held in reset. */
    method ResetCore(core: nat, ghost a: Hw)
      requires Coasts(a, h)
      modifies this`h, this`bus
      ensures Coasts(a, h) && bus == old(bus) + [Reset(core)]
      ensures if core == 0 then !h.pru.running else h.pru.running == old(h).pru.running
    {
      hide Inv, Streaming, Rely, Coasts;
      ghost var before := h;
      CoastsInv(a, h);
      Others();
      OwnedRely(before, h);
      CoastsRely(a, before, h);
      if core == 0 {
        CoastsReset(a, h);
        h := h.(pru := h.pru.(running := false));
      }
      bus := bus + [Reset(core)];
    }

    /** Read one pending core's run state and reset it if it has stopped. */
    method CheckCore(core: nat, ghost prefix: seq<BusOp>, ghost p: Polling, ghost a: Hw) returns (running: bool)
      requires Coasts(a, h) && core < 2 && core !in p.stopped && bus == prefix + p.log
      modifies this`h, this`bus
      ensures Coasts(a, h) && bus == prefix + CorePolled(p, core, running).log
      ensures core == 0 && !running ==> !h.pru.running
      ensures !old(h).pru.running ==> !h.pru.running
    {
      hide Inv, Streaming, Rely, Coasts;
      ghost var before := h;
      CoastsInv(a, h);
      running := RunState(core);
      OwnedRely(before, h);
      CoastsRely(a, before, h);
      if !running {
        ResetCore(core, a);
        assert bus == prefix + (p.log + [SawCore(core, false), Reset(core)]);
      }
    }

    /** One polling round over the pending cores, CPU masked throughout, unless the PRUSS clock is off. */
    method PollCores(ghost rounds: seq<Round>, ghost prefix: seq<BusOp>) returns (functional: bool, ghost more: seq<Round>)
      requires Outside(h) && bus == prefix + Polled(rounds).log && Polled(rounds).stopped == req.cleanupStopped
      requires 0 in req.cleanupStopped ==> !h.pru.running
      modifies this`h, this`bus, this`req
      ensures Coasts(old(h), h) && Outside(h)
      ensures more == rounds || (|more| == |rounds| + 1 && functional)
      ensures bus == prefix + Polled(more).log && Polled(more).stopped == req.cleanupStopped
      ensures req == old(req).(cleanupStopped := req.cleanupStopped)
      ensures 0 in req.cleanupStopped ==> !h.pru.running
    {
      hide Inv, Streaming, Rely, Coasts, Polled;
      ghost var begin := h;
      var flags;
      ghost var entry;
      flags, entry := Mask();
      OwnedRely(begin, entry);
      ghost var masked := h;
      CoastsFrom(masked);
      functional := MailboxFunctional();
      OwnedRely(masked, h);
      CoastsRely(masked, masked, h);
      more := rounds;
      if functional {
        ghost var p, r := Polled(rounds), Round(true, true);
        for core := 0 to 2
          modifies this`h, this`bus, this`req
          invariant Coasts(masked, h) && bus == prefix + p.log && p.stopped == req.cleanupStopped
          invariant req == old(req).(cleanupStopped := req.cleanupStopped)
          invariant 0 in req.cleanupStopped ==> !h.pru.running
          invariant core == 0 ==> p == Polled(rounds)
          invariant core == 1 ==> p == CorePolled(Polled(rounds), 0, r.core0)
          invariant core == 2 ==> p == CorePolled(CorePolled(Polled(rounds), 0, r.core0), 1, r.core1)
        {
          var running := true;
          if core !in req.cleanupStopped {
            running := CheckCore(core, prefix, p, masked);
            if !running { req := req.(cleanupStopped := req.cleanupStopped + {core}); }
          }
          p, r := CorePolled(p, core, running), if core == 0 then Round(running, true) else r.(core1 := running);
        }
        more := rounds + [r];
        PolledNext(rounds, r);
      }
      CoastsBracket(begin, entry, h);
      CoastsInv(masked, h);
      Unmask(flags);
    }

    /** Second phase: poll the pending cores until both have stopped, for at most 200 rounds and the
        deadline, resetting each as soon as its run state reads clear. */
    method StopCores() returns (ghost rounds: seq<Round>)
      requires Outside(h) && req.cleanupStopped == {}
      modifies this`h, this`bus, this`req
      ensures Coasts(old(h), h) && Outside(h) && |rounds| <= 200
      ensures bus == old(bus) + Polled(rounds).log
      ensures req == old(req).(cleanupStopped := Polled(rounds).stopped,
                               cleanupFailed := old(req).cleanupFailed + (if Polled(rounds).stopped == {0, 1} then {} else {0}))
      ensures 0 in req.cleanupStopped ==> !h.pru.running
    {
      hide Inv, Streaming, Polled, Rely, Outside, Coasts;
      ghost var begin := h;
      ghost var prefix := bus;
      OutsideCoasts(h);
      rounds := [];
      NothingPolled();
      assert bus == prefix + Polled(rounds).log;
      var now: int := *;
      var deadline := now + GATE_TIMEOUT_NS;
      for attempt := 0 to 200
        invariant Coasts(begin, h) && Outside(h)
        invariant bus == prefix + Polled(rounds).log && |rounds| <= attempt
        invariant req == old(req).(cleanupStopped := Polled(rounds).stopped)
        invariant 0 in req.cleanupStopped ==> !h.pru.running
      {
        if req.cleanupStopped == {0, 1} { break; }
        now := *;
        if now >= deadline { break; }
        ghost var before := h;
        var functional;
        functional, rounds := PollCores(rounds, prefix);
        CoastsThen(begin, before, h);
        if !functional { break; }
        if req.cleanupStopped != {0, 1} {
          before := h;
          OutsideInv(h);
          Others();
          OutsideRely(before, h);
          OwnedRely(before, h);
          CoastsRely(begin, before, h);
        }
      }
      if req.cleanupStopped != {0, 1} { req := req.(cleanupFailed := req.cleanupFailed + {0}); }
    }

    /** Drive one GPIO block low, with up to eight attempts; `stuck` latches may read high regardless. */
    method ClearBank(gpio: nat, ghost a: Hw) returns (low: bool)
      requires gpio < 3 && Drained(a, h)
      modifies this`h
      ensures Drained(a, h)
      ensures low && !h.pru.running ==> ReadsLow(h, gpio)
      ensures !h.pru.running ==> forall b: nat :: b < 3 && ReadsLow(old(h), b) ==> ReadsLow(h, b)
    {
      hide Inv, Streaming, ReadsLow, Rely;
      var k := OrdinalOf(gpio);
      for attempt := 0 to 8
        invariant Drained(a, h)
        invariant !h.pru.running ==> forall b: nat :: b < 3 && ReadsLow(old(h), b) ==> ReadsLow(h, b)
      {
        ghost var before := h;
        Others();
        LowRely(before, h);
        DrainedRely(a, before, h);
        LatchKeepsInv(h, AndNot(h.high, BankPins(k)));
        ClearedIsLow(h, gpio);
        ghost var written := h;
        h := h.(high := AndNot(h.high, BankPins(k)));
        forall b: nat | b < 3 && ReadsLow(written, b) ensures ReadsLow(h, b) { StillLow(written, k, b); }
        before := h;
        Others();
        LowRely(before, h);
        DrainedRely(a, before, h);
        var stuck: Pins := *;
        if And(Or(h.high, stuck), BankPins(k)) == NONE {
          return true;
        }
      }
      return false;
    }

    /** One GPIO block of the third phase. */
    method JudgeBank(gpio: nat, ghost a: Hw)
      requires gpio < 3 && Drained(a, h) && BanksJudged(h, req.cleanupLow, req.cleanupFailed, gpio)
      modifies this`h, this`req
      ensures Drained(a, h) && BanksJudged(h, req.cleanupLow, req.cleanupFailed, gpio + 1)
      ensures req == old(req).(cleanupLow := req.cleanupLow, cleanupFailed := req.cleanupFailed)
      ensures 0 in req.cleanupFailed <==> 0 in old(req).cleanupFailed
    {
      hide Inv, Streaming, ReadsLow, Rely, BanksJudged;
      ghost var before := h;
      Others();
      LowRely(before, h);
      DrainedRely(a, before, h);
      var low := false;
      WiredInv(h);
      if Functional(h.dma.gpioClocks[gpio]) {
        low := ClearBank(gpio, a);
      }
      Judge(before, h, req.cleanupLow, req.cleanupFailed, gpio, low);
      if low { req := req.(cleanupLow := req.cleanupLow + {gpio}); }
      else { req := req.(cleanupFailed := req.cleanupFailed + {gpio + 1}); }
    }

    /** Third phase, in one window: every functional GPIO block is driven low even if another failed. */
    method ClearBanks()
      requires Outside(h) && req.cleanupLow == {} && req.cleanupFailed <= {0}
      modifies this`h, this`req
      ensures Outside(h) && Drained(old(h), h)
      ensures BanksJudged(h, req.cleanupLow, req.cleanupFailed, 3)
      ensures req == old(req).(cleanupLow := req.cleanupLow, cleanupFailed := req.cleanupFailed)
      ensures 0 in req.cleanupFailed <==> 0 in old(req).cleanupFailed
    {
      ghost var begin := h;
      var flags;
      ghost var entry;
      flags, entry := Mask();
      ghost var masked := h;
      NothingJudged(h, req.cleanupFailed);
      DrainedEntry(begin, entry);
      hide Inv, Streaming, ReadsLow, Rely, BanksJudged;
      for gpio := 0 to 3
        invariant Drained(masked, h)
        invariant BanksJudged(h, req.cleanupLow, req.cleanupFailed, gpio)
        invariant req == old(req).(cleanupLow := req.cleanupLow, cleanupFailed := req.cleanupFailed)
        invariant 0 in req.cleanupFailed <==> 0 in old(req).cleanupFailed
      {
        JudgeBank(gpio, masked);
      }
      JudgedCpu(h, flags, req.cleanupLow, req.cleanupFailed);
      Unmask(flags);
    }

    /** failed_frame_cleanup. The register log is a function of the PRUSS clock word on `entry` to its first window and
        of the run states read while polling: mailbox invalidated and both cores disabled iff that word says
        functional; a core reset only directly after its run state read clear. Each GPIO block is reported
        low or failed and not both, and bit 0 of the failure mask is clear iff the disables were written and
        both cores were seen stopped. */
    method FailedFrameCleanup() returns (ghost entry: Hw, ghost rounds: seq<Round>)
      requires Outside(h) && req.cleanupStopped == {} && req.cleanupLow == {} && req.cleanupFailed == {}
      modifies this`h, this`bus, this`writes, this`req
      ensures Rely(old(h), entry) && Outside(h) && h.cpu == old(h).cpu && |rounds| <= 200
      ensures bus == old(bus) + CleanupLog(Functional(entry.dma.prussClock), rounds) && req.cleanupStopped == Polled(rounds).stopped
      ensures writes == old(writes) + (if Functional(entry.dma.prussClock) then [0] else [])
      ensures Functional(entry.dma.prussClock) || 0 in req.cleanupStopped ==> !h.pru.running
      ensures Functional(entry.dma.prussClock) ==> h.mb.magic == 0
      ensures BanksJudged(h, req.cleanupLow, req.cleanupFailed, 3)
      ensures 0 !in req.cleanupFailed <==> Functional(entry.dma.prussClock) && req.cleanupStopped == {0, 1}
      ensures req == old(req).(cleanupStopped := req.cleanupStopped, cleanupLow := req.cleanupLow, cleanupFailed := req.cleanupFailed)
    {
      hide Inv, Streaming, Rely, Polled, BanksJudged, Outside, Coasts, Functional;
      var functional;
      functional, entry := Withdraw();
      ghost var before := h;
      rounds := StopCores();
      CoastsFields(before, h);
      ClearBanks();
    }

    // -------------------------------------------------------------- perform_send

    /** Publication in one window: grant cleared and colour stored before the sequence. The firmware is
        idle until the sequence word is written, so it cannot see an earlier frame's grant or colour. */
    method Publish() returns (error: int)
      requires Outside(h) && Idle(h) && Settled(h) && !req.submitted
      requires req.input.rgb <= 0xff_ffff && h.mb.requestSeq == req.input.previousSeq
      modifies this`h, this`req, this`writes
      ensures req == old(req).(stage := Publishing, requestSeq := Succ(old(req).input.previousSeq), submitted := error == 0)
      ensures error != 0 ==> error == ENODEV && Rely(old(h), h) && Outside(h) && writes == old(writes)
      ensures error == 0 ==> writes == old(writes) + [60, 36, 40]
                             && InFrame(old(h), h, WireColor(req.input.profile, req.input.rgb), req.requestSeq)
                             && (old(h).mb.status == READY ==> Truthful(h))
    {
      hide Inv, Honest, Streaming, Settled, Rely, Parked, Idle;
      req := req.(stage := Publishing, requestSeq := Succ(req.input.previousSeq));
      ghost var begin := h;
      var flags;
      ghost var entry;
      flags, entry := Mask();
      IdleRely(begin, entry);
      SettledCpu(entry, h);
      ghost var masked := h;
      var functional := MailboxFunctional();
      IdleRely(masked, h);
      if !functional {
        BracketRely(begin, entry, h);
        Unmask(flags);
        return ENODEV;
      }
      var color := WireColor(req.input.profile, req.input.rgb);
      ghost var before := h;
      Others();
      IdleRely(before, h);
      PublishKeepsInv(h, color);
      h := h.(mb := h.mb.(bankGrant := 0));
      before := h;
      Others();
      IdleRely(before, h);
      PublishKeepsInv(h, color);
      h := h.(mb := h.mb.(wireColor := color));
      before := h;
      Others();
      IdleRely(before, h);
      PublishKeepsInv(h, color);
      req := req.(submitted := true);
      h := h.(mb := h.mb.(requestSeq := req.requestSeq), base := h.sent);
      writes := writes + [60, 36, 40];
      HonestDma(h, h.(cpu := flags));
      Unmask(flags);
      error := 0;
    }

    /** The budget loop. Its range check never fires on validated lengths. */
    method ComputeBudgets()
      requires ValidLengths(req.input.lengths) && |req.budget| == 3 == |req.elapsed|
      modifies this`req
      ensures req == old(req).(budget := req.budget) && Budgeted(req)
      ensures forall i :: 0 <= i < 3 ==> req.budget[i] < BANK_MAX_CYCLES
    {
      for ordinal := 1 to 4
        invariant req == old(req).(budget := req.budget) && |req.budget| == 3
        invariant forall i :: 0 <= i < ordinal - 1 ==> req.budget[i] == Budget(BankLength(req.input.lengths, i + 1))
        invariant forall i :: 0 <= i < ordinal - 1 ==> req.budget[i] < BANK_MAX_CYCLES
      {
        req := req.(budget := req.budget[ordinal - 1 := Budget(BankLength(req.input.lengths, ordinal))]);
        if req.budget[ordinal - 1] >= BANK_MAX_CYCLES {
          assert false;
        }
      }
    }

    /** One iteration of the bank loop of perform_send. */
    method SendBank(ordinal: Bank, ghost begin: Hw, ghost color: u32) returns (error: int, ghost granted: bool)
      requires InFrame(begin, h, color, req.requestSeq) && BanksDone(req, ordinal)
      requires PacedRuns() && req.budget[ordinal - 1] < BANK_MAX_CYCLES && BankLength(req.input.lengths, ordinal) != 0
      modifies this`h, this`runs, this`grants, this`writes, this`req, this`bus, this`acts
      ensures Outside(h) && h.cpu == begin.cpu && SameButBanks(old(req), req)
      ensures grants == old(grants) + (if granted then [ordinal] else [])
      ensures error == 0 ==> granted && BanksDone(req, ordinal as int + 1) && InFrame(begin, h, color, req.requestSeq)
                             && h.mb.bankGrant == ordinal
      ensures req.restoreFailed != {} ==> error == EIO
    {
      hide Inv, Honest, Streaming, Rely, MayAttempt, AttemptOutcome, Indices, ReadyAt;
      req := req.(stage := WaitingGate);
      granted := false;
      ghost var before, seqNo := h, req.requestSeq;
      error := WaitGate(ordinal, false);
      FrameRely(begin, before, h, color, seqNo);
      if error != 0 { return; }
      BankMayBegin(Now(), ordinal);
      ghost var view := Now();
      ghost var stopped, first, retries, ending;
      var stored;
      error, stored, stopped, first, retries, ending := AdmissionWait(BankGrant(ordinal), false);
      granted := stored;
      if error == 0 {
        BankSucceeds(begin, view, Now(), color, seqNo, ordinal, granted, stopped);
      } else {
        BankFails(view, Now(), ordinal, error, granted, stopped);
      }
    }

    /** The bank loop of perform_send: every nonempty bank, in order, is awaited at its gate and granted
        once. `reached` tells how far the grants went. */
    method SendBanks(ghost begin: Hw, ghost color: u32) returns (error: int, ghost reached: nat)
      requires InFrame(begin, h, color, req.requestSeq)
      requires BanksDone(req, 1) && PacedRuns() && forall i :: 0 <= i < 3 ==> req.budget[i] < BANK_MAX_CYCLES
      modifies this`h, this`runs, this`grants, this`writes, this`req, this`bus, this`acts
      ensures Outside(h) && h.cpu == begin.cpu && SameButBanks(old(req), req)
      ensures reached <= 4 && grants == old(grants) + EnabledBefore(req.input.lengths, reached)
      ensures error == 0 ==> reached == 4 && BanksDone(req, 4) && InFrame(begin, h, color, req.requestSeq)
      ensures error == 0 ==> h == old(h) || h.mb.bankGrant != 0
      ensures req.restoreFailed != {} ==> error == EIO
    {
      hide Inv, Honest, Streaming, Indices, EnabledBefore, BankLength, PacedRuns;
      error, reached := 0, 1;
      NoneEnabled(req.input.lengths);
      for ordinal := 1 to 4
        invariant SameButBanks(old(req), req) && BanksDone(req, ordinal) && InFrame(begin, h, color, req.requestSeq)
        invariant grants == old(grants) + EnabledBefore(req.input.lengths, ordinal) && error == 0
        invariant h == old(h) || h.mb.bankGrant != 0
      {
        IndicesNext(req.input.lengths, ordinal);
        reached := ordinal;
        if BankLength(req.input.lengths, ordinal) == 0 { continue; }
        ghost var granted;
        error, granted := SendBank(ordinal, begin, color);
        if error != 0 {
          if granted { reached := ordinal + 1; }
          return;
        }
      }
      reached := 4;
    }

    /** The diagnostic snapshot at submitted_done, taken with the CPU masked. */
    method Diagnose(result: int) returns (error: int)
      requires Outside(h)
      modifies this`h, this`req
      ensures Rely(old(h), h) && Outside(h) && SameButSnapshot(old(req), req)
      ensures if result != 0 then error == result else error in {0, ENODEV}
      ensures error == 0 ==> req.requestSeq == h.mb.requestSeq && Announced(req, h)
      ensures error == 0 && Over(old(h)) && old(h).pru.running ==> ShowsDone(req)
    {
      hide Inv, Honest, Streaming, Rely, Settled, Idle;
      error := result;
      ghost var begin := h;
      var flags;
      ghost var entry;
      flags, entry := Mask();
      ghost var masked := h;
      var functional := MailboxFunctional();
      RelyInv(masked, h);
      OwnedRely(begin, entry);
      OwnedRely(masked, h);
      OverRely(begin, entry);
      TruthfulCpu(entry, masked);
      OverRely(masked, h);
      if h.pru.running && Idle(h) { IdleFields(h); }
      if functional {
        ghost var before := h;
        Snapshot();
        RelyTransitive(masked, before, h);
      } else if error == 0 {
        error := ENODEV;
      }
      SettledCpu(h, h.(cpu := flags));
      BracketRely(begin, entry, h);
      Unmask(flags);
    }

    /** The final wait. Once a bank has been granted, or if no DONE of an earlier frame was left, success means
        that the firmware is idle again and has said so. */
    method FinalWait(ghost begin: Hw, ghost color: u32) returns (error: int)
      requires InFrame(begin, h, color, req.requestSeq)
      modifies this`h, this`req
      ensures InFrame(begin, h, color, req.requestSeq) && req == old(req).(stage := req.stage)
      ensures h.mb.bankGrant == old(h).mb.bankGrant
      ensures error == 0 ==> Settled(h) && (Truthful(old(h)) || h.mb.bankGrant != 0 ==> Over(h))
    {
      hide Inv, Honest, Streaming, Rely, Settled, Over, Truthful;
      ghost var before := h;
      req := req.(stage := Finishing);
      OutsideInv(h);
      if h.mb.bankGrant != 0 { GrantedIsTruthful(h); }
      error := WaitGate(1, true);
      OwnedRely(before, h);
      FrameRely(begin, before, h, color, req.requestSeq);
      if error == 0 { req := req.(stage := Completed); }
    }

    /** Everything perform_send does after publication: the banks, the final wait, the diagnostic snapshot
        and, on any error, the cleanup. `clean` says that no DONE of an earlier frame is left to be seen. */
    method Finish(ghost begin: Hw, ghost color: u32, ghost clean: bool) returns (error: int, ghost reached: nat)
      requires InFrame(begin, h, color, req.requestSeq) && req.requestSeq == Succ(begin.mb.requestSeq)
      requires Budgeted(req) && Zeroed(req.(budget := [0, 0, 0], submitted := false)) && PacedRuns()
      requires clean ==> Truthful(h)
      requires forall i :: 0 <= i < 3 ==> req.budget[i] < BANK_MAX_CYCLES
      modifies this`h, this`runs, this`grants, this`writes, this`req, this`bus, this`acts
      ensures Outside(h) && h.cpu == begin.cpu && req.submitted == old(req).submitted && req.input == old(req).input
      ensures reached <= 4 && grants == old(grants) + EnabledBefore(req.input.lengths, reached)
      ensures error == 0 ==> reached == 4 && BanksDone(req, 4) && Budgeted(req) && req.cleanupFailed == {}
                             && FrameSent(begin, h, color) && Honest(h) && Announced(req, h)
                             && req.requestSeq == h.mb.requestSeq
                             && (LastBank(begin.mb.lengths) != 0 || clean ==> ShowsDone(req))
      ensures error != 0 ==> Recovered(h, req)
    {
      hide Inv, Honest, Streaming, Rely, BanksJudged, FrameSent, EnabledBefore, PacedRuns, Indices, BankLength, Settled, Parked, Over, Truthful;
      error, reached := 0, 1;
      NoBanks(req);
      error, reached := SendBanks(begin, color);
      ghost var seqNo := req.requestSeq;
      if error == 0 { error := FinalWait(begin, color); }
      ghost var before := h;
      error := Diagnose(error);
      OwnedRely(before, h);
      if error == 0 {
        SettledRely(before, h);
        FrameRely(begin, before, h, color, seqNo);
        SettledFrame(begin, h, color);
        SameGrant(before, h, begin, color);
      } else {
        ghost var entry, rounds := FailedFrameCleanup();
      }
    }

    /** Validation with the CPU masked and the mailbox clocked. */
    method ValidateMasked() returns (error: int)
      requires Outside(h)
      modifies this`h, this`req
      ensures Rely(old(h), h) && Outside(h) && SameButSnapshot(old(req), req)
      ensures error == 0 ==> Prepared(old(h), h, req.input)
    {
      hide Inv, Honest, Streaming, Rely, Settled, Idle;
      ghost var begin := h;
      var flags;
      ghost var entry;
      flags, entry := Mask();
      ghost var masked := h;
      var functional := MailboxFunctional();
      RelyInv(masked, h);
      OwnedRely(masked, h);
      if functional {
        ghost var before := h;
        error := Validate();
        RelyTransitive(masked, before, h);
      } else {
        error := ENODEV;
      }
      SettledCpu(h, h.(cpu := flags));
      BracketRely(begin, entry, h);
      Unmask(flags);
    }

    /** perform_send up to the budgets: the CPU and PMU checks, validation, and the network, power and idle
        preconditions. Says which references it holds, also on failure. */
    method Prepare() returns (error: int, policy: bool, rtnl: bool, net: bool, power: bool)
      requires Outside(h) && PacedRuns()
      modifies this`h, this`req, this`ledger, this`runs, this`grants, this`writes, this`bus, this`acts
      ensures Rely(old(h), h) && Outside(h) && SameButSnapshot(old(req).(stage := req.stage), req)
      ensures grants == old(grants) && writes == old(writes)
      ensures ledger == old(ledger).(policy := old(ledger).policy + Count(policy), rtnl := old(ledger).rtnl + Count(rtnl),
                                     net := old(ledger).net + Count(net), power := old(ledger).power + Count(power))
      ensures error == 0 ==> Prepared(old(h), h, req.input)
    {
      hide Inv, Honest, Streaming, Rely, Settled, Idle, Outside, Prepared, PacedRuns;
      ghost var begin := h;
      OutsideInv(h);
      RelyReflexive(h);
      policy, rtnl, net, power := false, false, false, false;
      var oneCpu: bool := *;
      if !oneCpu { error := ENODEV; return; }
      policy := *;
      ledger := ledger.(policy := ledger.policy + Count(policy));
      req := req.(stage := CheckingCpu);
      var fixedCpu: bool := *;
      if !policy || !fixedCpu { error := ERANGE; return; }
      req := req.(stage := CheckingPmu);
      var pmuReady: bool := *;
      if !pmuReady { error := ENODEV; return; }
      req := req.(stage := Validating);
      error := ValidateMasked();
      if error != 0 { return; }
      rtnl := *;
      if !rtnl { error := EBUSY; return; }
      ledger := ledger.(rtnl := ledger.rtnl + 1);
      net := *;
      ledger := ledger.(net := ledger.net + Count(net));
      var cpswDevice: bool := *;
      if !net || !cpswDevice { error := ENODEV; return; }
      error := *;
      power := true;
      ledger := ledger.(power := ledger.power + 1);
      if error < 0 { return; }
      ghost var before := h;
      ghost var first, retries, ending, stopped;
      var granted;
      DmaMayBegin(Now());
      error, granted, stopped, first, retries, ending := AdmissionWait(OtherDma, true);
      WaitedRely(Now().(h := before), Now(), error, granted, stopped);
      RelyTransitive(begin, before, h);
      PreparedRely(begin, before, h, req.input);
      if error != 0 { return; }
      var signalled: bool := *;
      if signalled { error := EINTR; }
    }

    /** perform_send from the budgets on, once everything is prepared. */
    method Transmit(ghost begin: View) returns (error: int, ghost reached: nat)
      requires Prepared(begin.h, h, req.input) && Inv(begin.h) && !Streaming(begin.h) && PacedRuns() && Zeroed(req)
      requires grants == begin.grants && writes == begin.writes
      modifies this`h, this`req, this`runs, this`grants, this`writes, this`bus, this`acts
      ensures Outside(h) && h.cpu == old(h).cpu && req.input == old(req).input
      ensures reached <= 4 && grants == old(grants) + EnabledBefore(req.input.lengths, reached)
      ensures !req.submitted ==> error != 0 && NothingSent(begin, Now())
      ensures error == 0 ==> SendComplete(begin, Now())
      ensures req.submitted && error != 0 ==> Recovered(h, req)
    {
      hide Inv, Honest, Streaming, Rely, Settled, Idle, FrameSent, Announced, BanksDone, Recovered, BankLength;
      ghost var prepared := h;
      reached := 1;
      NoneEnabled(req.input.lengths);
      ComputeBudgets();
      error := Publish();
      if error == 0 {
        ghost var color := WireColor(req.input.profile, req.input.rgb);
        FramePublished(prepared, h, color, req.requestSeq);
        hide EnabledBefore, Budgeted, Prepared, InFrame, KernelCheck, WireColor;
        error, reached := Finish(prepared, color, prepared.mb.status == READY);
        if error == 0 {
          CompleteFromFrame(begin, prepared, Now());
        }
      } else {
        RelyTransitive(begin.h, prepared, h);
        OwnedRely(prepared, h);
      }
    }

    /** perform_send. On every path each reference taken is given back exactly once and the CPU state is as
        on entry; every nonempty bank is granted at most once, in order; an unpublished request changed
        nothing; success means the whole frame is out; and a published failure was cleaned up. */
    method PerformSend() returns (error: int, ghost reached: nat)
      requires Outside(h) && PacedRuns() && Zeroed(req)
      modifies this`h, this`req, this`ledger, this`runs, this`grants, this`writes, this`bus, this`acts
      ensures ledger == old(ledger)
      ensures Outside(h) && h.cpu == old(h).cpu && req.input == old(req).input
      ensures reached <= 4 && grants == old(grants) + EnabledBefore(req.input.lengths, reached)
      ensures !req.submitted ==> error != 0 && NothingSent(old(Now()), Now())
      ensures error == 0 ==> SendComplete(old(Now()), Now())
      ensures req.submitted && error != 0 ==> Recovered(h, req)
    {
      hide Inv, Honest, Rely, Settled, Idle, EnabledBefore, Recovered, SendComplete, Streaming, PacedRuns;
      ghost var begin := Now();
      OutsideInv(h);
      RelyReflexive(h);
      reached := 1;
      NoneEnabled(req.input.lengths);
      req := req.(stage := Validating);
      var free: bool := *;
      if !free { error := EBUSY; return; }
      ledger := ledger.(mutex := ledger.mutex + 1);
      ledger := ledger.(hotplug := ledger.hotplug + 1);
      var policy, rtnl, net, power;
      error, policy, rtnl, net, power := Prepare();
      OwnedRely(begin.h, h);
      if error == 0 {
        error, reached := Transmit(begin);
      }
      if power { ledger := ledger.(power := ledger.power - 1); }
      if net { ledger := ledger.(net := ledger.net - 1); }
      if rtnl { ledger := ledger.(rtnl := ledger.rtnl - 1); }
      if policy { ledger := ledger.(policy := ledger.policy - 1); }
      ledger := ledger.(hotplug := ledger.hotplug - 1);
      ledger := ledger.(mutex := ledger.mutex - 1);
    }
  }
}
