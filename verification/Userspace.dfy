/** The userspace side of the hardware (src/dld_hw.c) and the initialisation command (src/dld_init.c).
    It runs unmasked: the firmware, the DMA engines and everything else on the CPU may step between any
    two of its accesses, and the process may be killed before each of its writes. Mapping, discovery and
    notification routes are not modelled. */
module Userspace {
  import opened Abi
  import opened CommandBlock
  import opened Firmware
  import opened Invariant
  import opened Interference
  import opened Transaction
  import opened Kernel

  const FAILED: int := -1
  /** The process has been killed: nothing it would have done after this point happens. */
  const KILLED: int := -9

  function Disables(mask: set<int>): seq<BusOp> {
    (if 0 in mask then [Disabled(0)] else []) + (if 1 in mask then [Disabled(1)] else [])
  }

  /** The first n lengths stored. */
  function LengthsTo(before: Lengths, after: Lengths, n: int): Lengths {
    seq(6, i requires 0 <= i < 6 => if i < n then after[i] else before[i])
  }

  const STORES := 18

  /** The mailbox after the first n stores of dld_init, in its order; the status comes last. */
  function InitWords(m: Mailbox, c: Config, n: nat): Mailbox {
    Mailbox(
      if n >= 1 then COMMAND_MAGIC else m.magic,
      if n >= 2 then ABI_VERSION else m.abiVersion,
      if n >= 3 then c.profile else m.profile,
      LengthsTo(m.lengths, c.lengths, n - 3),
      if n >= 10 then 0 else m.wireColor,
      if n >= 11 then 0 else m.requestSeq,
      if n >= 12 then 0 else m.completionSeq,
      if n >= 18 then INITIALIZING else m.status,
      if n >= 13 then ERROR_NONE else m.errorDetail,
      if n >= 14 then 0 else m.bankReady,
      if n >= 15 then 0 else m.bankGrant,
      if n >= 16 then 0 else m.bankDone,
      if n >= 17 then 0 else m.acceptedSeq)
  }

  /** The state dld_init leaves in the mailbox before it starts the firmware. */
  function Initial(c: Config): Mailbox {
    Mailbox(COMMAND_MAGIC, ABI_VERSION, c.profile, c.lengths, 0, 0, 0, INITIALIZING, 0, 0, 0, 0, 0)
  }

  /** PRU0 stopped; its registers, the mailbox and the pins no longer move by themselves. */
  predicate Stopped(h: Hw) {
    Outside(h) && !h.pru.running
  }

  lemma StoppedRely(a: Hw, b: Hw)
    requires Stopped(a) && Rely(a, b)
    ensures Stopped(b) && b == a.(dma := b.dma)
  {
    OutsideRely(a, b);
    StoppedStays(a, b);
  }

  lemma StoppedCoasts(a: Hw, b: Hw)
    requires Stopped(a) && Coasts(a, b)
    ensures Stopped(b) && b == a.(dma := b.dma)
  {
  }

  lemma OutsideReflexive(h: Hw)
    requires Outside(h)
    ensures Rely(h, h)
  {
    RelyReflexive(h);
  }

  lemma StoppedChange(h: Hw, mb: Mailbox, high: Pins)
    requires Stopped(h)
    ensures Stopped(h.(mb := mb, high := high))
  {
  }

  lemma StopOutside(h: Hw)
    requires Outside(h)
    ensures Stopped(h.(pru := h.pru.(running := false)))
  {
    StopKeepsInv(h);
  }

  lemma StartKeepsInv(h: Hw, c: Config, p: Pru)
    requires Stopped(h) && h.mb == Initial(c) && p.running && p.loc == Boot(CheckMagic)
    ensures Outside(h.(pru := p)) && Settled(h.(pru := p))
  {
  }

  /** The words only the kernel helper and dld_init write. */
  predicate OwnedWords(a: Mailbox, b: Mailbox) {
    && a.magic == b.magic && a.abiVersion == b.abiVersion && a.profile == b.profile && a.lengths == b.lengths
    && a.wireColor == b.wireColor && a.requestSeq == b.requestSeq && a.bankGrant == b.bankGrant
  }

  /** Only GPIO latches and DMA state can have changed since a. */
  predicate LatchesOnly(a: Hw, b: Hw) {
    Stopped(b) && b == a.(dma := b.dma, high := b.high)
  }

  lemma LowStays(a: Hw, b: Hw)
    requires b.high == a.high
    ensures forall g: nat :: g < 3 && ReadsLow(a, g) ==> ReadsLow(b, g)
  {
    assert forall g: nat :: g < 3 ==> ReadsLow(b, g) == ReadsLow(a, g);
  }

  /** Store n (from 0). */
  function NextWord(m: Mailbox, c: Config, n: nat): Mailbox {
    if n == 0 then m.(magic := COMMAND_MAGIC)
    else if n == 1 then m.(abiVersion := ABI_VERSION)
    else if n == 2 then m.(profile := c.profile)
    else if n <= 8 then m.(lengths := m.lengths[n - 3 := c.lengths[n - 3]])
    else if n == 9 then m.(wireColor := 0)
    else if n == 10 then m.(requestSeq := 0)
    else if n == 11 then m.(completionSeq := 0)
    else if n == 12 then m.(errorDetail := ERROR_NONE)
    else if n == 13 then m.(bankReady := 0)
    else if n == 14 then m.(bankGrant := 0)
    else if n == 15 then m.(bankDone := 0)
    else if n == 16 then m.(acceptedSeq := 0)
    else m.(status := INITIALIZING)
  }

  lemma NextWordInitialises(m: Mailbox, c: Config, n: nat)
    requires n < STORES
    ensures NextWord(InitWords(m, c, n), c, n) == InitWords(m, c, n + 1)
    ensures InitWords(m, c, 0) == m && InitWords(m, c, STORES) == Initial(c)
  {
    if 3 <= n <= 8 {
      assert LengthsTo(m.lengths, c.lengths, n - 3)[n - 3 := c.lengths[n - 3]] == LengthsTo(m.lengths, c.lengths, n - 2);
    } else {
      assert LengthsTo(m.lengths, c.lengths, n - 3) == LengthsTo(m.lengths, c.lengths, n - 2);
    }
    assert LengthsTo(m.lengths, c.lengths, 0 - 3) == m.lengths;
    assert LengthsTo(m.lengths, c.lengths, STORES - 3) == c.lengths;
  }

  /** How far a userspace cleanup got: the cores it disabled, whether it invalidated the mailbox, how many GPIO
      blocks it has dealt with, in order, and which of those it configured with success. */
  datatype Report = Report(disabled: set<int>, invalidated: bool, attempted: nat, low: set<nat>)

  /** What that leaves on the board: core 0, once disabled, is stopped; and every block configured with success
      reads low, however many others failed. */
  ghost predicate Reported(h: Hw, r: Report) {
    && Outside(h) && r.disabled in {{}, {0}, {0, 1}}
    && (0 in r.disabled ==> Stopped(h))
    && (r.invalidated ==> r.disabled == {0, 1} && h.mb.magic == 0)
    && r.attempted <= 3 && (r.attempted > 0 ==> r.invalidated)
    && (forall g :: g in r.low ==> g < r.attempted)
    && (forall g :: g in r.low ==> g < 3 && ReadsLow(h, g))
  }

  /** The cleanup ran to its end; it deals with all three blocks or, without access to them, with none. */
  predicate RanToEnd(r: Report) {
    r.disabled == {0, 1} && r.invalidated && (r.attempted == 0 || r.attempted == 3)
  }

  /** What dld_init can leave behind once it has begun: a stopped PRU0, or the firmware running on exactly the
      new configuration. */
  predicate InitFate(c: Config, h: Hw) {
    Outside(h) && (h.pru.running ==> OwnedWords(h.mb, Initial(c)))
  }

  lemma StoppedFate(c: Config, h: Hw)
    requires Stopped(h)
    ensures InitFate(c, h)
  {
  }

  lemma ReadyFate(c: Config, h: Hw)
    requires Outside(h) && h.mb == Initial(c).(status := READY)
    ensures InitFate(c, h)
  {
  }

  lemma InitFateRely(c: Config, a: Hw, b: Hw)
    requires InitFate(c, a) && Rely(a, b)
    ensures InitFate(c, b)
  {
    OutsideRely(a, b);
    OwnedRely(a, b);
  }

  lemma ReadyIsOk(c: Config)
    requires ValidConfig(c)
    ensures CheckMailbox(Initial(c).(status := READY)) == OK
  {
  }

  class Device {
    const kernel: Helper
    // LED pins configured as outputs, by GPIO block.
    var outputs: set<int>

    constructor (k: Helper)
      ensures kernel == k && outputs == {}
    {
      kernel := k;
      outputs := {};
    }

    method Elapse()
      requires Outside(kernel.h)
      modifies kernel`h
      ensures Rely(old(kernel.h), kernel.h) && Outside(kernel.h)
    {
      ghost var before := kernel.h;
      kernel.Others();
      OutsideRely(before, kernel.h);
    }

    /** Stop the PRUs in `mask`: every one is disabled before any is polled, one is reset only directly
        after its run state read clear, and after 101 polling rounds or the deadline the rest are given up
        without a reset. `disabled` are the cores disabled, all of `mask` unless the process was killed. */
    method StopPrus(mask: set<int>) returns (code: int, ghost log: seq<BusOp>, ghost stopped: set<int>, ghost disabled: set<int>)
      requires Outside(kernel.h) && mask in {{0}, {0, 1}}
      modifies kernel`h, kernel`bus
      ensures Outside(kernel.h) && kernel.h.cpu == old(kernel.h).cpu && code in {0, FAILED, KILLED}
      ensures kernel.bus == old(kernel.bus) + Disables(disabled) + log
      ensures StopLog(log, stopped) && stopped <= disabled && |log| <= 404
      ensures disabled in {{}, {0}, mask} && (code != KILLED || log != [] ==> disabled == mask)
      ensures code == 0 ==> stopped == mask
      ensures code == FAILED ==> stopped != mask
      ensures disabled == {} ==> Rely(old(kernel.h), kernel.h)
      ensures 0 in disabled ==> Stopped(kernel.h)
      ensures Stopped(old(kernel.h)) ==> kernel.h == old(kernel.h).(dma := kernel.h.dma)
    {
      hide Inv, Streaming, StopLog, Rely;
      stopped, log, disabled := {}, [], {};
      NothingStopped();
      assert kernel.bus == old(kernel.bus) + Disables({}) + [];
      var killed: bool := *;
      if killed {
        OutsideReflexive(kernel.h);
        return KILLED, log, stopped, disabled;
      }
      Disable(0);
      disabled := {0};
      if 1 in mask {
        killed := *;
        if killed { return KILLED, log, stopped, disabled; }
        Disable(1);
        disabled := {0, 1};
      }
      assert disabled == mask;
      code, log, stopped := PollStopped(mask);
    }

    /** The polling of stop_prus, with PRU0 disabled. */
    method PollStopped(mask: set<int>) returns (code: int, ghost log: seq<BusOp>, ghost stopped: set<int>)
      requires Stopped(kernel.h) && mask in {{0}, {0, 1}}
      modifies kernel`h, kernel`bus
      ensures Stopped(kernel.h) && kernel.h == old(kernel.h).(dma := kernel.h.dma) && code in {0, FAILED, KILLED}
      ensures kernel.bus == old(kernel.bus) + log
      ensures StopLog(log, stopped) && stopped <= mask && |log| <= 404
      ensures code == 0 ==> stopped == mask
      ensures code == FAILED ==> stopped != mask
    {
      hide Inv, Streaming, StopLog, Rely;
      ghost var begin, prefix := kernel.h, kernel.bus;
      stopped, log := {}, [];
      NothingStopped();
      assert kernel.bus == prefix + log;
      var pending := mask;
      var attempts := 0;
      while pending != {}
        invariant 0 <= attempts <= 100 && |log| <= 4 * attempts
        invariant Stopped(kernel.h) && kernel.h == begin.(dma := kernel.h.dma)
        invariant kernel.bus == prefix + log && StopLog(log, stopped)
        invariant stopped == mask - pending && pending <= mask
        decreases 101 - attempts
      {
        for core := 0 to 2
          invariant |log| <= 4 * attempts + 2 * core
          invariant Stopped(kernel.h) && kernel.h == begin.(dma := kernel.h.dma)
          invariant kernel.bus == prefix + log && StopLog(log, stopped)
          invariant stopped == mask - pending && pending <= mask
        {
          if core in pending {
            code, log, stopped := PollCore(core, prefix, log, stopped);
            if code == KILLED { return; }
            if code == 0 { pending := pending - {core}; }
          }
        }
        if pending == {} { return 0, log, stopped; }
        var clockRead: bool := *;
        var expired: bool := *;
        if !clockRead { return FAILED, log, stopped; }
        attempts := attempts + 1;
        if expired || attempts > 100 { return FAILED, log, stopped; }
        var interrupted: bool := *;
        if interrupted { return FAILED, log, stopped; }
      }
      code := 0;
    }

    method Disable(core: nat)
      requires Outside(kernel.h) && core < 2
      modifies kernel`h, kernel`bus
      ensures Outside(kernel.h) && kernel.h.cpu == old(kernel.h).cpu
      ensures kernel.bus == old(kernel.bus) + [Disabled(core)]
      ensures core == 0 ==> Stopped(kernel.h)
      ensures Stopped(old(kernel.h)) ==> kernel.h == old(kernel.h).(dma := kernel.h.dma)
    {
      hide Inv, Streaming, Rely;
      ghost var begin := kernel.h;
      Elapse();
      OwnedRely(begin, kernel.h);
      if !begin.pru.running { StoppedRely(begin, kernel.h); }
      if core == 0 {
        StopOutside(kernel.h);
        kernel.h := kernel.h.(pru := kernel.h.pru.(running := false));
        assert !begin.pru.running ==> kernel.h == begin.(dma := kernel.h.dma);
      }
      kernel.bus := kernel.bus + [Disabled(core)];
    }

    /** Read one pending core's run state and reset it if it has stopped. */
    method PollCore(core: nat, ghost prefix: seq<BusOp>, ghost log: seq<BusOp>, ghost stopped: set<int>)
      returns (code: int, ghost more: seq<BusOp>, ghost done: set<int>)
      requires Stopped(kernel.h) && core < 2 && core !in stopped
      requires kernel.bus == prefix + log && StopLog(log, stopped)
      modifies kernel`h, kernel`bus
      ensures Stopped(kernel.h) && kernel.h == old(kernel.h).(dma := kernel.h.dma) && code in {0, FAILED, KILLED}
      ensures kernel.bus == prefix + more && |more| <= |log| + 2
      ensures done == (if code == 0 then stopped + {core} else stopped) && StopLog(more, done)
    {
      hide Inv, Streaming, StopLog, Rely, Coasts;
      ghost var before := kernel.h;
      OutsideInv(kernel.h);
      var running := kernel.RunState(core);
      StoppedRely(before, kernel.h);
      StopLogGrows(log, stopped, core, running);
      more, done := log + [SawCore(core, running)], stopped;
      if running { return FAILED, more, done; }
      var killed: bool := *;
      if killed { return KILLED, more, done; }
      ghost var seen := kernel.h;
      OutsideCoasts(seen);
      kernel.ResetCore(core, seen);
      StoppedCoasts(seen, kernel.h);
      more, done := log + [SawCore(core, false), Reset(core)], stopped + {core};
      code := 0;
    }

    /** Read the mailbox word by word, the status first. Words only the kernel or dld_init writes are as
        read; and if nothing is outstanding and the status read is READY or DONE, all of it is. */
    method Snapshot() returns (m: Mailbox)
      requires Outside(kernel.h)
      modifies kernel`h
      ensures Rely(old(kernel.h), kernel.h) && Outside(kernel.h)
      ensures OwnedWords(m, kernel.h.mb)
      ensures Settled(old(kernel.h)) && (m.status == READY || m.status == DONE) ==> Idle(kernel.h) && m == kernel.h.mb
    {
      hide Outside, Honest, Rely, Idle, Settled;
      ghost var begin := kernel.h;
      Elapse();
      var status := kernel.h.mb.status;
      ghost var first := kernel.h;
      if Settled(begin) {
        SettledRely(begin, first);
        if status == READY || status == DONE {
          OutsideInv(first);
          SettledMeansIdle(first);
        }
      }
      OutsideInv(first);
      RelyReflexive(first);
      ElapseSince(begin, first);
      var magic := kernel.h.mb.magic;
      ElapseSince(begin, first);
      var abiVersion := kernel.h.mb.abiVersion;
      ElapseSince(begin, first);
      var profile := kernel.h.mb.profile;
      var lengths := ReadLengths(begin, first);
      ElapseSince(begin, first);
      var wireColor := kernel.h.mb.wireColor;
      ElapseSince(begin, first);
      var requestSeq := kernel.h.mb.requestSeq;
      ElapseSince(begin, first);
      var completionSeq := kernel.h.mb.completionSeq;
      ElapseSince(begin, first);
      var errorDetail := kernel.h.mb.errorDetail;
      ElapseSince(begin, first);
      var bankReady := kernel.h.mb.bankReady;
      ElapseSince(begin, first);
      var bankGrant := kernel.h.mb.bankGrant;
      ElapseSince(begin, first);
      var bankDone := kernel.h.mb.bankDone;
      ElapseSince(begin, first);
      var acceptedSeq := kernel.h.mb.acceptedSeq;
      m := Mailbox(magic, abiVersion, profile, lengths, wireColor, requestSeq, completionSeq, status, errorDetail,
                   bankReady, bankGrant, bankDone, acceptedSeq);
    }

    /** The six lengths, one by one. */
    method ReadLengths(ghost a: Hw, ghost b: Hw) returns (lengths: Lengths)
      requires Outside(kernel.h) && Rely(a, kernel.h) && Rely(b, kernel.h) && OwnedWords(a.mb, kernel.h.mb)
      requires Outside(b) && Idle(b) ==> kernel.h == b.(dma := kernel.h.dma) && Idle(kernel.h)
      modifies kernel`h
      ensures Rely(a, kernel.h) && Rely(b, kernel.h) && Outside(kernel.h) && OwnedWords(a.mb, kernel.h.mb)
      ensures Outside(b) && Idle(b) ==> kernel.h == b.(dma := kernel.h.dma) && Idle(kernel.h)
      ensures lengths == a.mb.lengths
    {
      hide Outside, Rely, Idle;
      lengths := [0, 0, 0, 0, 0, 0];
      for i := 0 to 6
        invariant Outside(kernel.h) && Rely(a, kernel.h) && Rely(b, kernel.h) && OwnedWords(a.mb, kernel.h.mb)
        invariant Outside(b) && Idle(b) ==> kernel.h == b.(dma := kernel.h.dma) && Idle(kernel.h)
        invariant forall j :: 0 <= j < i ==> lengths[j] == a.mb.lengths[j]
      {
        ElapseSince(a, b);
        lengths := lengths[i := kernel.h.mb.lengths[i]];
      }
    }

    method ElapseSince(ghost a: Hw, ghost b: Hw)
      requires Outside(kernel.h) && Rely(a, kernel.h) && Rely(b, kernel.h)
      modifies kernel`h
      ensures Rely(a, kernel.h) && Rely(b, kernel.h) && Outside(kernel.h)
      ensures OwnedWords(a.mb, kernel.h.mb)
      ensures Outside(b) && Idle(b) ==> kernel.h == b.(dma := kernel.h.dma) && Idle(kernel.h)
    {
      ghost var before := kernel.h;
      Elapse();
      RelyTransitive(a, before, kernel.h);
      RelyTransitive(b, before, kernel.h);
      OwnedRely(a, kernel.h);
      if Outside(b) && Idle(b) { IdleRely(b, kernel.h); }
    }

    /** configure_bank: clear and drain the LED latches before the directions change, so no stale high is
        ever driven. Zero means that the block's pins are outputs and read low. */
    method ConfigureBank(gpio: nat) returns (code: int)
      requires Stopped(kernel.h) && gpio < 3
      modifies kernel`h, this`outputs
      ensures LatchesOnly(old(kernel.h), kernel.h) && code in {0, FAILED, KILLED}
      ensures outputs == old(outputs) || (outputs == old(outputs) + {gpio} && ReadsLow(kernel.h, gpio))
      ensures code == 0 ==> gpio in outputs && ReadsLow(kernel.h, gpio)
      ensures forall g: nat :: g < 3 && ReadsLow(old(kernel.h), g) ==> ReadsLow(kernel.h, g)
    {
      hide Outside, Rely, ReadsLow;
      ghost var begin := kernel.h;
      var killed: bool := *;
      if killed { return KILLED; }
      var mapped: bool := *;
      ElapseStopped();
      LowStays(begin, kernel.h);
      var clocked: bool := *;
      if !mapped || !clocked { return FAILED; }
      var cleared := false;
      for retry := 0 to 8
        invariant LatchesOnly(begin, kernel.h) && !cleared && outputs == old(outputs)
        invariant forall g: nat :: g < 3 && ReadsLow(begin, g) ==> ReadsLow(kernel.h, g)
      {
        killed := *;
        if killed { return KILLED; }
        cleared := ClearLatches(gpio);
        if cleared { break; }
      }
      if !cleared { return FAILED; }
      killed := *;
      if killed { return KILLED; }
      ghost var before := kernel.h;
      ElapseStopped();
      LowStays(before, kernel.h);
      outputs := outputs + {gpio};
      var inputs: bool := *;
      code := if inputs then FAILED else 0;
    }

    /** One attempt to clear a block's LED latches and read them back; `stuck` latches may read high. */
    method ClearLatches(gpio: nat) returns (low: bool)
      requires Stopped(kernel.h) && gpio < 3
      modifies kernel`h
      ensures LatchesOnly(old(kernel.h), kernel.h)
      ensures ReadsLow(kernel.h, gpio)
      ensures forall g: nat :: g < 3 && ReadsLow(old(kernel.h), g) ==> ReadsLow(kernel.h, g)
    {
      hide Outside, Rely, ReadsLow;
      ghost var begin := kernel.h;
      var k := OrdinalOf(gpio);
      ElapseStopped();
      LowStays(begin, kernel.h);
      ghost var before := kernel.h;
      StoppedChange(before, before.mb, AndNot(before.high, BankPins(k)));
      ClearedIsLow(before, gpio);
      forall g: nat | g < 3 && ReadsLow(before, g)
        ensures ReadsLow(before.(high := AndNot(before.high, BankPins(k))), g)
      {
        StillLow(before, k, g);
      }
      kernel.h := kernel.h.(high := AndNot(kernel.h.high, BankPins(k)));
      before := kernel.h;
      ElapseStopped();
      LowStays(before, kernel.h);
      var stuck: Pins := *;
      low := And(Or(kernel.h.high, stuck), BankPins(k)) == NONE;
    }

    method ElapseStopped()
      requires Stopped(kernel.h)
      modifies kernel`h
      ensures Stopped(kernel.h) && kernel.h == old(kernel.h).(dma := kernel.h.dma)
    {
      ghost var before := kernel.h;
      Elapse();
      StoppedRely(before, kernel.h);
    }

    method InvalidateMailbox()
      requires Outside(kernel.h)
      modifies kernel`h, kernel`bus
      ensures Outside(kernel.h) && kernel.h.mb.magic == 0 && kernel.bus == old(kernel.bus) + [WroteMagic]
      ensures kernel.h.cpu == old(kernel.h).cpu && kernel.h.pru.running == old(kernel.h).pru.running
      ensures Stopped(old(kernel.h)) ==> kernel.h == old(kernel.h).(dma := kernel.h.dma, mb := old(kernel.h).mb.(magic := 0))
    {
      ghost var before := kernel.h;
      Elapse();
      OwnedRely(before, kernel.h);
      if !before.pru.running { StoppedRely(before, kernel.h); }
      MagicKeepsInv(kernel.h);
      kernel.h := kernel.h.(mb := kernel.h.mb.(magic := 0));
      kernel.bus := kernel.bus + [WroteMagic];
    }

    /** dld_hw_cleanup: stop both cores, invalidate the mailbox, and drive every accessible GPIO block low
        even when another one failed. Killed at any point, it leaves what its report says. */
    method Cleanup() returns (code: int, ghost report: Report, ghost log: seq<BusOp>, ghost stopped: set<int>)
      requires Outside(kernel.h)
      modifies kernel`h, kernel`bus, this`outputs
      ensures code in {0, KILLED} && Reported(kernel.h, report) && kernel.h.cpu == old(kernel.h).cpu
      ensures code == 0 ==> RanToEnd(report)
      ensures report.disabled == {} ==> Rely(old(kernel.h), kernel.h)
      ensures kernel.bus == old(kernel.bus) + Disables(report.disabled) + log + (if report.invalidated then [WroteMagic] else [])
      ensures StopLog(log, stopped)
      ensures outputs >= old(outputs) && report.low <= outputs
      ensures forall g: nat :: g < 3 && g in outputs - old(outputs) ==> ReadsLow(kernel.h, g)
    {
      hide Outside, Rely, ReadsLow, StopLog;
      ghost var disabled;
      code, log, stopped, disabled := StopPrus({0, 1});
      report := Report(disabled, false, 0, {});
      if code == KILLED { return; }
      var killed: bool := *;
      if killed { code := KILLED; return; }
      InvalidateMailbox();
      report := report.(invalidated := true);
      var mapped: bool := *;
      if !mapped { code := 0; return; }
      ghost var cleared := kernel.h;
      for gpio := 0 to 3
        invariant LatchesOnly(cleared, kernel.h) && outputs >= old(outputs)
        invariant report == Report({0, 1}, true, gpio, report.low) && report.low <= outputs
        invariant forall g :: g in report.low ==> g < gpio && ReadsLow(kernel.h, g)
        invariant kernel.bus == old(kernel.bus) + Disables({0, 1}) + log + [WroteMagic]
        invariant forall g: nat :: g < 3 && g in outputs - old(outputs) ==> ReadsLow(kernel.h, g)
      {
        code := ConfigureBank(gpio);
        if code == KILLED { return; }
        report := report.(attempted := gpio + 1, low := report.low + if code == 0 then {gpio} else {});
      }
      code := 0;
    }

    /** dld_hw_take_control. */
    method TakeControl() returns (code: int)
      requires Outside(kernel.h)
      modifies kernel`h, kernel`bus
      ensures Outside(kernel.h) && kernel.h.cpu == old(kernel.h).cpu && code in {0, FAILED, KILLED}
      ensures code != KILLED ==> Stopped(kernel.h) && kernel.h.mb.magic == 0
      ensures code == KILLED ==> Rely(old(kernel.h), kernel.h) || Stopped(kernel.h)
    {
      hide Outside, Rely, StopLog;
      ghost var log, stopped, disabled;
      code, log, stopped, disabled := StopPrus({0, 1});
      if code == KILLED { return; }
      var killed: bool := *;
      if killed { return KILLED; }
      InvalidateMailbox();
    }

    /** dld_hw_configure_outputs. */
    method ConfigureOutputs() returns (code: int)
      requires Stopped(kernel.h)
      modifies kernel`h, this`outputs
      ensures LatchesOnly(old(kernel.h), kernel.h) && code in {0, FAILED, KILLED}
      ensures code == 0 ==> outputs >= {0, 1, 2} && kernel.h.high == NONE
    {
      hide Outside, Rely, ReadsLow;
      var mapped: bool := *;
      if !mapped { return FAILED; }
      for gpio := 0 to 3
        invariant LatchesOnly(old(kernel.h), kernel.h)
        invariant forall g: nat :: g < gpio ==> g in outputs && ReadsLow(kernel.h, g)
      {
        code := ConfigureBank(gpio);
        if code != 0 { return; }
      }
      AllLow(kernel.h);
      assert 0 in outputs && 1 in outputs && 2 in outputs;
      code := 0;
    }

    /** The mailbox stores of dld_init, each a step of its own; the process may be killed before any of them,
        after `stores` of them. */
    method WriteMailbox(c: Config) returns (code: int, ghost stores: nat)
      requires Stopped(kernel.h)
      modifies kernel`h
      ensures Stopped(kernel.h) && code in {0, KILLED} && stores <= STORES
      ensures kernel.h == old(kernel.h).(dma := kernel.h.dma, mb := InitWords(old(kernel.h).mb, c, stores))
      ensures code == 0 ==> stores == STORES && kernel.h.mb == Initial(c)
    {
      hide Outside, InitWords, NextWord;
      ghost var begin := kernel.h;
      stores := 0;
      NextWordInitialises(begin.mb, c, 0);
      for n := 0 to STORES
        invariant Stopped(kernel.h) && stores == n
        invariant kernel.h == begin.(dma := kernel.h.dma, mb := InitWords(begin.mb, c, n))
      {
        var killed: bool := *;
        if killed { return KILLED, n; }
        ElapseStopped();
        ghost var before := kernel.h;
        NextWordInitialises(begin.mb, c, n);
        kernel.h := kernel.h.(mb := NextWord(kernel.h.mb, c, n));
        StoppedChange(before, kernel.h.mb, before.high);
        assert kernel.h == before.(mb := kernel.h.mb, high := before.high);
        stores := n + 1;
      }
      code := 0;
    }

    /** dld_hw_start: stop PRU0, load and verify its code, then release it at its first instruction. */
    method Start(c: Config) returns (code: int)
      requires Stopped(kernel.h) && kernel.h.mb == Initial(c)
      modifies kernel`h, kernel`bus
      ensures code in {0, FAILED, KILLED} && InitFate(c, kernel.h)
      ensures code == 0 ==> Settled(kernel.h) && kernel.h.pru.running
      ensures code != 0 ==> Stopped(kernel.h)
    {
      hide Inv, Streaming, StopLog, Settled;
      ghost var log, stopped, disabled;
      code, log, stopped, disabled := StopPrus({0});
      if code != 0 { return; }
      var killed: bool := *;
      if killed { return KILLED; }
      ElapseStopped();
      var verified: bool := *;
      if !verified { return FAILED; }
      killed := *;
      if killed { return KILLED; }
      ElapseStopped();
      var registers: Pru := *;
      var p := registers.(running := true, loc := Boot(CheckMagic));
      StartKeepsInv(kernel.h, c, p);
      kernel.h := kernel.h.(pru := p);
    }

    /** wait_ready: poll until the firmware announces READY with a zero handshake, up to the deadline. */
    method WaitReady(c: Config) returns (code: int)
      requires Outside(kernel.h) && Settled(kernel.h) && kernel.h.pru.running && OwnedWords(kernel.h.mb, Initial(c))
      requires ValidConfig(c)
      modifies kernel`h
      ensures Outside(kernel.h) && kernel.h.pru.running && OwnedWords(kernel.h.mb, Initial(c)) && code in {0, FAILED, KILLED}
      ensures code == 0 ==> Idle(kernel.h) && kernel.h.mb == Initial(c).(status := READY)
    {
      hide Outside, Settled, Idle, Rely;
      var rounds: int := *;
      for i := 0 to if rounds > 0 then rounds else 0
        invariant Outside(kernel.h) && Settled(kernel.h) && kernel.h.pru.running && OwnedWords(kernel.h.mb, Initial(c))
      {
        var killed: bool := *;
        if killed { return KILLED; }
        var cancelled: bool := *;
        if cancelled { return FAILED; }
        var expired: bool := *;
        if expired { return FAILED; }
        ghost var before := kernel.h;
        var m := Snapshot();
        OwnedRely(before, kernel.h);
        SettledRely(before, kernel.h);
        if m.errorDetail != ERROR_NONE || m.status == ERROR { return FAILED; }
        if m.status == READY && m.requestSeq == 0 && m.completionSeq == 0 && m.bankReady == 0 && m.bankGrant == 0
           && m.bankDone == 0 && m.acceptedSeq == 0 {
          expired := *;
          return if expired then FAILED else 0;
        }
        if m.status != INITIALIZING { return FAILED; }
        before := kernel.h;
        Elapse();
        OwnedRely(before, kernel.h);
        SettledRely(before, kernel.h);
      }
      return FAILED;
    }

    /** dld_init from its lock to its exit, for a configuration the parser accepted. It may be killed
        before each of its writes, its cleanup included. Success leaves an idle firmware and a mailbox ready
        for the first send; a reported failure after taking control leaves both cores disabled and the
        mailbox invalid; death leaves the board as it was, PRU0 stopped, or the firmware running on exactly
        the new configuration. */
    method Init(c: Config) returns (code: int, ghost report: Report)
      requires Outside(kernel.h) && ValidConfig(c)
      modifies kernel`h, kernel`bus, this`outputs
      ensures Outside(kernel.h) && Reported(kernel.h, report)
      ensures code in {OK, BUSY, PREREQUISITE, INIT_FAILURE, KILLED}
      ensures code == OK ==> kernel.h.pru.running && Idle(kernel.h) && CheckMailbox(kernel.h.mb) == OK
                             && kernel.h.mb == Initial(c).(status := READY)
      ensures code in {BUSY, PREREQUISITE} ==> Rely(old(kernel.h), kernel.h)
      ensures code == INIT_FAILURE ==> Rely(old(kernel.h), kernel.h) || (RanToEnd(report) && kernel.h.mb.magic == 0)
      ensures Rely(old(kernel.h), kernel.h) || InitFate(c, kernel.h)
    {
      hide Outside, Settled, Idle, Rely, InitFate, ReadsLow;
      OutsideReflexive(kernel.h);
      report := Report({}, false, 0, {});
      var locked: bool := *;
      if !locked {
        var held: bool := *;
        return if held then BUSY else PREREQUISITE, report;
      }
      var mapped: bool := *;
      if !mapped { return PREREQUISITE, report; }
      var cancelled: bool := *;
      if cancelled { return INIT_FAILURE, report; }
      code := TakeOver(c);
      if code == KILLED { return; }
      var killed: bool := *;
      if killed { return KILLED, report; }
      if code == 0 {
        ReadyIsOk(c);
        ReadyFate(c, kernel.h);
        return OK, report;
      }
      ghost var before := kernel.h;
      ghost var log, stopped;
      code, report, log, stopped := Cleanup();
      if report.disabled == {} { InitFateRely(c, before, kernel.h); } else { StoppedFate(c, kernel.h); }
      if code == 0 { code := INIT_FAILURE; }
    }

    /** The phases of dld_init between taking control and its report. */
    method TakeOver(c: Config) returns (code: int)
      requires Outside(kernel.h) && ValidConfig(c)
      modifies kernel`h, kernel`bus, this`outputs
      ensures Outside(kernel.h) && code in {0, FAILED, KILLED}
      ensures code == 0 ==> kernel.h.pru.running && Idle(kernel.h) && kernel.h.mb == Initial(c).(status := READY)
      ensures code != KILLED ==> InitFate(c, kernel.h)
      ensures Rely(old(kernel.h), kernel.h) || InitFate(c, kernel.h)
    {
      hide Settled, Idle, Rely, Inv, Streaming;
      code := TakeControl();
      if code != 0 { return; }
      code := ConfigureOutputs();
      if code != 0 { return; }
      ghost var stores;
      code, stores := WriteMailbox(c);
      if code != 0 { return; }
      var cancelled: bool := *;
      if cancelled { return FAILED; }
      code := Start(c);
      if code != 0 { return; }
      code := WaitReady(c);
      if code != 0 { return; }
      cancelled := *;
      if cancelled { return FAILED; }
    }
  }
}
