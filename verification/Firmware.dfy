/** The hardware shared by the kernel helper and PRU0, and the firmware of pru/ws2812_uniform.p as a
    step machine: every mailbox or GPIO access of the firmware is one step, with the register-only
    instructions that follow it folded in. `Step` is one atomic step of anything that is not the
    kernel helper's own thread: the PRU, or the DMA engines and clocks. */
module Firmware {
  import opened Abi
  import opened CommandBlock

  type Pins = s: seq<bool> | |s| == 6 witness [false, false, false, false, false, false]
  type Streams = s: seq<seq<bool>> | |s| == 6 witness [[], [], [], [], [], []]
  type Bank = k: int | 1 <= k <= 3 witness 1

  /** Where the firmware is: the access it performs next. */
  datatype Loc =
    | Boot(boot: BootLoc)
    | Poll
    | Serve(serve: ServeLoc)
    | Group(bank: Bank, at: GroupLoc)
    | Close(close: CloseLoc)
    | Fail(fail: FailLoc)

  datatype BootLoc =
    | CheckMagic | CheckAbi | CheckProfile | CheckLengths
    | CheckDirection(pass: Bank) | ClearPins(pass: Bank) | ReadPins(pass: Bank)
    | ZeroError | ZeroCompletion | ZeroReady | ZeroDone | ZeroAccepted | AnnounceReady

  datatype ServeLoc = CheckGrant | ClearReady | ClearDone | Accept | LoadColor | Announce

  datatype GroupLoc =
    | LoadLengths | AnnounceWait | PublishReady | Gate
    | DropReady | Resume | Rise | Fall | DrainClear | DrainReadback | PublishDone

  datatype CloseLoc = Complete | ClearError | AnnounceDone

  datatype FailLoc = Detail | Status | Halted

  /** The firmware's registers that survive from one step to the next: r3, r4, r10..r12, r9, r16, the
      unrolled bit position, r17 and r2. */
  datatype Pru = Pru(
    running: bool,
    loc: Loc,
    seqNo: u32,
    color: u32,
    ends: Lengths,
    active: Pins,
    pixel: u32,
    bit: nat,
    attempts: nat,
    cause: u32)

  const DRAIN_ATTEMPTS := 8

  /** Clock, DMA engine and CPSW registers. Index order of the engines: MMC0, MMC1, EDMA CC, TC0..TC2. */
  datatype Dma = Dma(
    prussClock: bv32,
    cpswClock: bv32,
    gpioClocks: seq<bv32>,
    engineClocks: seq<bv32>,
    engineStatus: seq<bv32>,
    cpswControl: bv32,
    cpswStatus: bv32)

  datatype Cpu = Cpu(irqOff: bool, fiqOff: bool, preempt: nat)

  /** A GPIO write of the pixel stream (or of its closing clear) as it happened: the bank written, the
      grant word then in force and whether the quiet window was then open. */
  datatype Edge = Edge(bank: Bank, granted: u32, quiet: bool)

  datatype Hw = Hw(
    mb: Mailbox,
    pru: Pru,
    dma: Dma,
    cpu: Cpu,
    high: Pins,
    // History, read by no one: the GPIO writes of the firmware's streams, the symbols each LED pin
    // has received, and those streams as they were when the outstanding request was published.
    edges: seq<Edge>,
    sent: Streams,
    base: Streams)

  // ---------------------------------------------------------------- the quiet window

  predicate Functional(clock: bv32) {
    clock & 0x30003 == 2
  }

  function BusyMask(i: nat): bv32 {
    if i < 2 then 0x307 else if i == 2 then 0x0007_3f17 else 0x77
  }

  /** Fully disabled; a transfer controller must be in standby as well. */
  predicate EngineOff(i: nat, clock: bv32) {
    clock & 3 == 0 && (clock >> 16) & 3 == 3 && (i < 3 || clock & 0x4_0000 != 0)
  }

  predicate EngineOn(clock: bv32) {
    clock & 3 == 2 && (clock >> 16) & 3 == 0
  }

  predicate EngineBusy(i: nat, status: bv32) {
    status & BusyMask(i) != 0
  }

  /** What other_dma_idle accepts for one engine. */
  predicate EngineIdle(i: nat, clock: bv32, status: bv32) {
    EngineOff(i, clock) || (EngineOn(clock) && !EngineBusy(i, status))
  }

  predicate Wired(d: Dma) {
    |d.gpioClocks| == 3 && |d.engineClocks| == 6 && |d.engineStatus| == 6
  }

  /** The first n engines, in the order they are checked, are idle. */
  predicate IdleUpTo(d: Dma, n: nat)
    requires n <= 6
  {
    Wired(d) && forall i {:trigger d.engineStatus[i]} :: 0 <= i < n ==> EngineIdle(i, d.engineClocks[i], d.engineStatus[i])
  }

  predicate EnginesIdle(d: Dma) {
    IdleUpTo(d, 6)
  }

  const COMMAND_IDLE: bv32 := 0x8
  const CPSW_IDLE: bv32 := 0x8000_0000
  const CPSW_ERROR: bv32 := 0x00f0_f000

  predicate CommandsIdle(control: bv32) { control & COMMAND_IDLE != 0 }
  predicate ReportsIdle(status: bv32) { status & CPSW_IDLE != 0 }
  predicate ReportsError(status: bv32) { status & CPSW_ERROR != 0 }
  function WithIdle(control: bv32): bv32 { control | COMMAND_IDLE }
  function WithoutErrors(status: bv32): bv32 { status & !CPSW_ERROR }

  lemma ControlBits(control: bv32, status: bv32)
    ensures CommandsIdle(WithIdle(control))
    ensures ReportsIdle(WithoutErrors(status)) == ReportsIdle(status)
  {
    assert (control | 8) & 8 == 8;
    assert (status & !(0x00f0_f000 as bv32)) & 0x8000_0000 == status & 0x8000_0000;
  }

  predicate CpswPaused(d: Dma) {
    CommandsIdle(d.cpswControl) && ReportsIdle(d.cpswStatus)
  }

  predicate Masked(c: Cpu) {
    c.irqOff && c.fiqOff && c.preempt > 0
  }

  /** The protected window: nothing else can run on the CPU, CPSW is told to idle and has drained, and
      no other DMA engine is active. */
  predicate Quiet(h: Hw) {
    Masked(h.cpu) && CpswPaused(h.dma) && EnginesIdle(h.dma)
  }

  /** Unmasked, anything may happen. While the only CPU is masked, clocks and controls are frozen and no
      new work is submitted: an engine can only become busy because one before it in the checking order
      (MMC, then the EDMA channel controller, then its transfer controllers) is still busy, and a paused,
      drained CPSW stays drained. */
  predicate DmaMayBecome(h: Hw, d: Dma) {
    Wired(d) &&
    (Masked(h.cpu) ==>
       && d.prussClock == h.dma.prussClock && d.cpswClock == h.dma.cpswClock
       && d.gpioClocks == h.dma.gpioClocks && d.engineClocks == h.dma.engineClocks
       && d.cpswControl == h.dma.cpswControl
       && (forall n :: 0 <= n <= 6 && IdleUpTo(h.dma, n) ==> IdleUpTo(d, n))
       && (CpswPaused(h.dma) ==> CpswPaused(d)))
  }

  // ---------------------------------------------------------------- colour bits and streams

  /** The 24 symbols of one pixel, most significant bit first. */
  function Bits(color: u32): (b: seq<bool>)
    ensures |b| == 24
  {
    seq(24, i requires 0 <= i < 24 => BitOf(color, 23 - i))
  }

  function Copies(color: u32, n: nat): seq<bool> {
    if n == 0 then [] else Copies(color, n - 1) + Bits(color)
  }

  /** Copies are what they say: symbol i is bit 23 - i mod 24 of the colour. */
  lemma {:induction false} CopiesRepeat(color: u32, n: nat)
    ensures |Copies(color, n)| == 24 * n
    ensures forall i :: 0 <= i < 24 * n ==> Copies(color, n)[i] == BitOf(color, 23 - i % 24)
  {
    if n > 0 {
      CopiesRepeat(color, n - 1);
      forall i | 0 <= i < 24 * n
        ensures Copies(color, n)[i] == BitOf(color, 23 - i % 24)
      {
        if i >= 24 * (n - 1) {
          assert i % 24 == i - 24 * (n - 1);
          assert Copies(color, n)[i] == Bits(color)[i - 24 * (n - 1)];
        }
      }
    }
  }

  /** What the pins have received once banks 1..k of a frame are out. */
  function AfterBanks(base: Streams, n: Lengths, color: u32, k: nat): Streams {
    seq(6, p requires 0 <= p < 6 => if BankOfPin(p) <= k then base[p] + Copies(color, n[p]) else base[p])
  }

  /** What the pins have received inside bank k, `pixel` whole pixels and `symbols` further symbols in. */
  function WithinBank(base: Streams, n: Lengths, color: u32, k: Bank, pixel: nat, symbols: nat): Streams
    requires symbols <= 24
  {
    seq(6, p requires 0 <= p < 6 =>
      if BankOfPin(p) != k then AfterBanks(base, n, color, k - 1)[p]
      else if n[p] > pixel then base[p] + Copies(color, pixel) + Bits(color)[..symbols]
      else base[p] + Copies(color, n[p]))
  }

  function BankPins(k: Bank): Pins {
    seq(6, p requires 0 <= p < 6 => BankOfPin(p) == k)
  }

  function Ends(n: Lengths, k: Bank): Lengths {
    seq(6, p requires 0 <= p < 6 => if BankOfPin(p) == k then n[p] else 0)
  }

  function ActiveAt(ends: Lengths, pixel: u32): Pins {
    seq(6, p requires 0 <= p < 6 => ends[p] > pixel)
  }

  function Or(a: Pins, b: Pins): Pins { seq(6, p requires 0 <= p < 6 => a[p] || b[p]) }
  function AndNot(a: Pins, b: Pins): Pins { seq(6, p requires 0 <= p < 6 => a[p] && !b[p]) }
  function And(a: Pins, b: Pins): Pins { seq(6, p requires 0 <= p < 6 => a[p] && b[p]) }

  const NONE: Pins := [false, false, false, false, false, false]

  // ---------------------------------------------------------------- the firmware

  function Append(s: Streams, active: Pins, bit: bool): Streams {
    seq(6, p requires 0 <= p < 6 => if active[p] then s[p] + [bit] else s[p])
  }

  /** FINISH_PIN for the three endpoints of the bank: toggle each pin whose endpoint was just reached. */
  function FinishPins(active: Pins, ends: Lengths, pixel: u32): Pins {
    seq(6, p requires 0 <= p < 6 => if ends[p] == pixel then !active[p] else active[p])
  }

  function At(h: Hw, loc: Loc): Hw {
    h.(pru := h.pru.(loc := loc))
  }

  function Fatal(h: Hw, cause: u32): Hw {
    h.(pru := h.pru.(loc := Fail(Detail), cause := cause))
  }

  /** Return from SEND_GROUP: the next group, or the settling wait after the last. */
  function AfterGroup(k: Bank): Loc {
    if k == 3 then Close(Complete) else Group(k + 1, LoadLengths)
  }

  function Mark(h: Hw, k: Bank): Hw {
    h.(edges := h.edges + [Edge(k, h.mb.bankGrant, Quiet(h))])
  }

  /** Start-up: check the configuration and the directions, clear the pins, publish READY. `stuck` are
      pins whose output latch reads back high regardless, `inputs` those configured as inputs. */
  function BootStep(h: Hw, at: BootLoc, stuck: Pins, inputs: Pins): Hw {
    var m, r := h.mb, h.pru;
    match at
    case CheckMagic => if m.magic == COMMAND_MAGIC then At(h, Boot(CheckAbi)) else Fatal(h, ERROR_MAGIC)
    case CheckAbi => if m.abiVersion == ABI_VERSION then At(h, Boot(CheckProfile)) else Fatal(h, ERROR_ABI)
    case CheckProfile => if ValidProfile(m.profile) then At(h, Boot(CheckLengths)) else Fatal(h, ERROR_PROFILE)
    case CheckLengths => if ValidLengths(m.lengths) then At(h, Boot(CheckDirection(1))) else Fatal(h, ERROR_LENGTH)
    case CheckDirection(k) =>
      if And(inputs, BankPins(k)) == NONE then h.(pru := r.(loc := Boot(ClearPins(k)), attempts := DRAIN_ATTEMPTS))
      else Fatal(h, ERROR_DIRECTION)
    case ClearPins(k) => h.(high := AndNot(h.high, BankPins(k)), pru := r.(loc := Boot(ReadPins(k))))
    case ReadPins(k) =>
      if And(Or(h.high, stuck), BankPins(k)) == NONE then At(h, Boot(if k == 3 then ZeroError else CheckDirection(k + 1)))
      else if r.attempts > 1 then h.(pru := r.(loc := Boot(ClearPins(k)), attempts := r.attempts - 1))
      else Fatal(h, ERROR_INIT_CLEAR)
    case ZeroError => h.(mb := m.(errorDetail := ERROR_NONE), pru := r.(loc := Boot(ZeroCompletion), seqNo := 0))
    case ZeroCompletion => h.(mb := m.(completionSeq := r.seqNo), pru := r.(loc := Boot(ZeroReady)))
    case ZeroReady => h.(mb := m.(bankReady := r.seqNo), pru := r.(loc := Boot(ZeroDone)))
    case ZeroDone => h.(mb := m.(bankDone := r.seqNo), pru := r.(loc := Boot(ZeroAccepted)))
    case ZeroAccepted => h.(mb := m.(acceptedSeq := r.seqNo), pru := r.(loc := Boot(AnnounceReady)))
    case AnnounceReady => h.(mb := m.(status := READY), pru := r.(loc := Poll))
  }

  /** The request loop. */
  function PollStep(h: Hw): Hw {
    if h.mb.requestSeq == h.pru.seqNo then h
    else h.(pru := h.pru.(loc := Serve(CheckGrant), seqNo := h.mb.requestSeq))
  }

  /** Acceptance of one request. */
  function ServeStep(h: Hw, at: ServeLoc): Hw {
    var m, r := h.mb, h.pru;
    match at
    case CheckGrant => if m.bankGrant == 0 then At(h, Serve(ClearReady)) else Fatal(h, ERROR_GATE)
    case ClearReady => h.(mb := m.(bankReady := 0), pru := r.(loc := Serve(ClearDone)))
    case ClearDone => h.(mb := m.(bankDone := 0), pru := r.(loc := Serve(Accept)))
    case Accept => h.(mb := m.(acceptedSeq := r.seqNo), pru := r.(loc := Serve(LoadColor)))
    case LoadColor =>
      if m.wireColor <= 0xff_ffff then h.(pru := r.(loc := Serve(Announce), color := m.wireColor))
      else Fatal(h.(pru := r.(color := m.wireColor)), ERROR_INTERNAL)
    case Announce => h.(mb := m.(status := RUNNING), pru := r.(loc := Group(1, LoadLengths)))
  }

  /** The falling edge of one symbol; after the last bit of a pixel, the balanced endpoint checks. */
  function FallStep(h: Hw, k: Bank): Hw {
    var r := h.pru;
    var g := Mark(h.(high := AndNot(h.high, r.active),
                     sent := Append(h.sent, r.active, BitOf(r.color, r.bit))), k);
    if r.bit > 0 then g.(pru := r.(loc := Group(k, Rise), bit := r.bit - 1))
    else
      var pixel := Succ(r.pixel);
      var active := FinishPins(r.active, r.ends, pixel);
      if active == NONE then g.(pru := r.(loc := Group(k, DrainClear), pixel := pixel, active := active, attempts := DRAIN_ATTEMPTS))
      else g.(pru := r.(loc := Group(k, Rise), pixel := pixel, active := active, bit := 23))
  }

  /** SEND_GROUP for bank k: gate, stream, drain, publication of bank_done. */
  function GroupStep(h: Hw, k: Bank, at: GroupLoc, stuck: Pins): Hw {
    var m, r := h.mb, h.pru;
    match at
    case LoadLengths =>
      var ends := Ends(m.lengths, k);
      var active := ActiveAt(ends, 0);
      h.(pru := r.(ends := ends, active := active,
                   loc := if active == NONE then AfterGroup(k) else Group(k, AnnounceWait)))
    case AnnounceWait => h.(mb := m.(status := WAIT_BANK), pru := r.(loc := Group(k, PublishReady)))
    case PublishReady => h.(mb := m.(bankReady := k), pru := r.(loc := Group(k, Gate)))
    case Gate =>
      if m.bankGrant == k then At(h, Group(k, DropReady))
      else if m.bankGrant < k then h
      else Fatal(h, ERROR_GATE)
    case DropReady => h.(mb := m.(bankReady := 0), pru := r.(loc := Group(k, Resume)))
    case Resume => h.(mb := m.(status := RUNNING), pru := r.(loc := Group(k, Rise), pixel := 0, bit := 23))
    case Rise => Mark(h.(high := Or(h.high, r.active), pru := r.(loc := Group(k, Fall))), k)
    case Fall => FallStep(h, k)
    case DrainClear => Mark(h.(high := AndNot(h.high, BankPins(k)), pru := r.(loc := Group(k, DrainReadback))), k)
    case DrainReadback =>
      if And(Or(h.high, stuck), BankPins(k)) == NONE then At(h, Group(k, PublishDone))
      else if r.attempts > 1 then h.(pru := r.(loc := Group(k, DrainClear), attempts := r.attempts - 1))
      else Fatal(h, ERROR_BANK_CLEAR)
    case PublishDone => h.(mb := m.(bankDone := k), pru := r.(loc := AfterGroup(k)))
  }

  function CloseStep(h: Hw, at: CloseLoc): Hw {
    var m, r := h.mb, h.pru;
    match at
    case Complete => h.(mb := m.(completionSeq := r.seqNo), pru := r.(loc := Close(ClearError)))
    case ClearError => h.(mb := m.(errorDetail := ERROR_NONE), pru := r.(loc := Close(AnnounceDone)))
    case AnnounceDone => h.(mb := m.(status := DONE), pru := r.(loc := Poll))
  }

  function FailStep(h: Hw, at: FailLoc): Hw {
    var m, r := h.mb, h.pru;
    match at
    case Detail => h.(mb := m.(errorDetail := r.cause), pru := r.(loc := Fail(Status)))
    case Status => h.(mb := m.(status := ERROR), pru := r.(loc := Fail(Halted)))
    case Halted => h
  }

  function PruStep(h: Hw, stuck: Pins, inputs: Pins): Hw {
    match h.pru.loc
    case Boot(b) => BootStep(h, b, stuck, inputs)
    case Poll => PollStep(h)
    case Serve(s) => ServeStep(h, s)
    case Group(k, g) => GroupStep(h, k, g, stuck)
    case Close(c) => CloseStep(h, c)
    case Fail(f) => FailStep(h, f)
  }

  datatype Choice =
    | Tick(stuck: Pins, inputs: Pins)
    | Drift(dma: Dma)

  /** One step of the world outside the kernel helper's thread. */
  function Step(h: Hw, c: Choice): Hw {
    match c
    case Tick(stuck, inputs) => if h.pru.running then PruStep(h, stuck, inputs) else h
    case Drift(d) => if DmaMayBecome(h, d) then h.(dma := d) else h
  }

  /** Any finite number of such steps. */
  function Run(h: Hw, cs: seq<Choice>): Hw {
    if cs == [] then h else Step(Run(h, cs[..|cs| - 1]), cs[|cs| - 1])
  }
}
