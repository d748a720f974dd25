/** The data of one send transaction of the kernel helper, what its parts promise to each other, and the
    lemmas about the single register and mailbox accesses it makes. */
module Transaction {
  import opened Abi
  import opened CommandBlock
  import opened Firmware
  import opened Invariant
  import opened Interference
  import G = GrantRoutine

  const BANK_GUARD_CYCLES: u32 := 600_000
  const CYCLES_PER_PIXEL: u32 := 28_800
  const BANK_MAX_CYCLES: u32 := 10_000_000
  const PACE: u32 := G.BIT30 - BANK_MAX_CYCLES + 2
  const ITERATION_CAP := 30_000_000
  const DRAIN_CYCLES: u32 := 500_000
  const ADMISSION_TIMEOUT_NS := 1_000_000_000
  const ADMISSION_MAX_ATTEMPTS := 10_000
  const GATE_TIMEOUT_NS := 20_000_000
  const FINAL_TIMEOUT_NS := 20_000_000

  datatype Stage = Validating | Publishing | WaitingGate | CheckingDma | InBank | Finishing | Completed | CheckingCpu | CheckingPmu

  /** struct dld_quiet_send: the input and what the kernel reports back. The u32 masks of the source are
      sets of bit numbers. */
  datatype Request = Request(
    input: SendInput,
    submitted: bool,
    requestSeq: u32,
    completionSeq: u32,
    status: u32,
    errorDetail: u32,
    acceptedSeq: u32,
    bankReady: u32,
    bankGrant: u32,
    bankDone: u32,
    stage: Stage,
    budget: seq<u32>,
    elapsed: seq<u32>,
    granted: set<int>,
    completed: set<int>,
    timerFault: set<int>,
    cleanupFailed: set<int>,
    cleanupStopped: set<int>,
    cleanupLow: set<int>,
    restoreFailed: set<int>)

  /** Register writes other than to the mailbox handshake, and readings of a core's run state. */
  datatype BusOp =
    | WroteCpsw(value: bv32)
    | WroteMagic
    | Disabled(core: nat)
    | SawCore(core: nat, running: bool)
    | Reset(core: nat)

  /** What an admission loop did. */
  datatype Act = Clock(now: int) | Tried(granted: bool, result: int) | Paused

  datatype Ops = OtherDma | BankGrant(ordinal: Bank)

  /** How often each reference is held by the transaction. */
  datatype Ledger = Ledger(mutex: int, hotplug: int, policy: int, rtnl: int, net: int, power: int)

  predicate Outside(h: Hw) {
    Inv(h) && !Streaming(h) && !Masked(h.cpu)
  }

  /** Bank k's gate is where the firmware waits, if it runs at all. */
  predicate ReadyAt(h: Hw, k: Bank) {
    h.pru.running ==> h.pru.loc == Group(k, Gate)
  }

  /** The firmware, if it runs, is in the request loop with nothing pending. */
  predicate Idle(h: Hw) {
    h.pru.running ==> h.pru.loc.Poll? && h.mb.requestSeq == h.pru.seqNo
  }

  predicate SnapshotExact(r: Request, m: Mailbox) {
    && r.requestSeq == m.requestSeq && r.completionSeq == m.completionSeq && r.status == m.status
    && r.errorDetail == m.errorDetail && r.acceptedSeq == m.acceptedSeq && r.bankReady == m.bankReady
    && r.bankGrant == m.bankGrant && r.bankDone == m.bankDone
  }

  /** A request whose diagnostics other than the snapshot are those of another. */
  predicate SameButSnapshot(a: Request, b: Request) {
    b == a.(requestSeq := b.requestSeq, completionSeq := b.completionSeq, status := b.status, errorDetail := b.errorDetail,
            acceptedSeq := b.acceptedSeq, bankReady := b.bankReady, bankGrant := b.bankGrant, bankDone := b.bankDone)
  }

  function Budget(length: u32): u32
    requires length <= MAX_LENGTH
  {
    if length != 0 then length * CYCLES_PER_PIXEL + BANK_GUARD_CYCLES else 0
  }

  // ---------------------------------------------------------------- lemmas about single accesses

  lemma MaskedBracket(a: Hw, b: Hw)
    requires Outside(a) && Rely(a.(cpu := Cpu(true, true, a.cpu.preempt + 1)), b)
    ensures Rely(a, b.(cpu := a.cpu)) && Outside(b.(cpu := a.cpu))
    ensures Inv(b) && !Streaming(b)
  {
    var m := a.(cpu := Cpu(true, true, a.cpu.preempt + 1));
    CalmChange(a, a.dma, m.cpu);
    CalmChange(b, b.dma, a.cpu);
    hide Inv;
  }

  /** The only CPU with IRQ, FIQ and preemption off. */
  function WithMask(h: Hw): Hw {
    h.(cpu := Cpu(true, true, h.cpu.preempt + 1))
  }

  /** From a through the masking at `entry` to b, just before the masks are put back. */
  lemma BracketRely(a: Hw, entry: Hw, b: Hw)
    requires Outside(a) && Rely(a, entry) && Rely(WithMask(entry), b)
    ensures Rely(a, b.(cpu := a.cpu)) && Rely(entry, b.(cpu := a.cpu)) && Outside(b.(cpu := a.cpu))
    ensures Inv(b) && !Streaming(b) && entry.cpu == a.cpu
  {
    OutsideRely(a, entry);
    OwnedRely(a, entry);
    MaskedBracket(entry, b);
    RelyTransitive(a, entry, b.(cpu := a.cpu));
  }

  /** A DONE read in a window that began truthful. */
  lemma SeenOver(start: Hw, entry: Hw, seen: Hw)
    requires Truthful(start) && Rely(start, entry) && Rely(WithMask(entry), seen) && seen.mb.status == DONE
    ensures Over(seen)
  {
    TruthfulRely(start, entry);
    TruthfulRely(WithMask(entry), seen);
    RelyInv(WithMask(entry), seen);
    DoneIsOver(seen);
  }

  lemma ReadyMeansGate(h: Hw, k: Bank)
    requires Inv(h) && !Streaming(h) && h.mb.bankReady == k
    ensures ReadyAt(h, k) && Parked(h)
  {
    hide Quiet, WithinBank, AfterBanks, ActiveAt, Ends, BankLength, SafeEdges;
    assert forall b: Bank :: LastBefore(h.mb.lengths, b) < b;
  }

  lemma GateIsParked(h: Hw, k: Bank)
    requires Inv(h) && !Streaming(h) && ReadyAt(h, k)
    ensures Parked(h)
    ensures h.pru.running ==> h.mb.bankGrant < k && h.mb.bankDone < k && !Settled(h)
  {
    hide Quiet, WithinBank, AfterBanks, ActiveAt, Ends, BankLength, SafeEdges;
    assert LastBefore(h.mb.lengths, k) < k;
  }

  /** Settled and announced READY or DONE: the firmware is idle. */
  lemma SettledMeansIdle(h: Hw)
    requires Inv(h) && Settled(h) && (h.mb.status == READY || h.mb.status == DONE)
    ensures Idle(h) && Parked(h)
  {
    hide Quiet, WithinBank, AfterBanks, ActiveAt, Ends, BankLength, SafeEdges;
  }

  /** Once a bank of the frame has been granted, DONE is no longer the previous frame's. */
  lemma GrantedIsTruthful(h: Hw)
    requires Inv(h) && h.mb.bankGrant != 0
    ensures Truthful(h)
  {
    hide Quiet, WithinBank, AfterBanks, ActiveAt, Ends, BankLength, SafeEdges;
  }

  /** The firmware is back in its request loop, and has said so. */
  predicate Over(h: Hw) {
    h.pru.running ==> Idle(h) && h.mb.status == DONE
  }

  /** A truthful DONE means just that. */
  lemma DoneIsOver(h: Hw)
    requires Inv(h) && Truthful(h) && h.mb.status == DONE
    ensures Over(h)
  {
    if h.pru.running { SettledMeansIdle(h); }
  }

  lemma IdleFields(h: Hw)
    requires Inv(h) && h.pru.running && Idle(h)
    ensures h.mb.completionSeq == h.mb.requestSeq && h.mb.errorDetail == 0 && Parked(h)
  {
  }

  /** The completed frame as the snapshot must show it when some bank was granted. */
  predicate ShowsDone(r: Request) {
    r.status == DONE && r.completionSeq == r.requestSeq && r.errorDetail == 0
  }

  lemma OverRely(a: Hw, b: Hw)
    requires Inv(a) && !Streaming(a) && Rely(a, b)
    ensures Over(a) ==> Over(b)
  {
    if Over(a) && a.pru.running { IdleRely(a, b); }
  }

  lemma TruthfulRely(a: Hw, b: Hw)
    requires Rely(a, b) && Truthful(a)
    ensures Truthful(b)
  {
  }

  lemma TruthfulCpu(a: Hw, b: Hw)
    requires b == a.(cpu := b.cpu)
    ensures Truthful(b) == Truthful(a) && Over(b) == Over(a)
  {
  }

  /** READY with nothing outstanding stays. */
  lemma ReadyStays(a: Hw, b: Hw)
    requires Inv(a) && Settled(a) && a.mb.status == READY && Rely(a, b)
    ensures b == a.(dma := b.dma)
  {
    SettledMeansIdle(a);
  }

  lemma NoneChecked(h: Hw)
    requires Inv(h)
    ensures IdleUpTo(h.dma, 0)
  {
  }

  lemma RelyFrozen(a: Hw, b: Hw)
    requires Rely(a, b) && Masked(a.cpu)
    ensures Frozen(a.dma, b.dma)
  {
  }

  lemma FrozenThen(a: Dma, b: Dma, c: Dma)
    requires Frozen(a, b) && Frozen(b, c)
    ensures Frozen(a, c)
  {
    hide IdleUpTo, CpswPaused;
  }

  lemma QuietRely(a: Hw, b: Hw)
    requires Rely(a, b) && Quiet(a)
    ensures Quiet(b)
  {
    hide Inv;
    assert IdleUpTo(a.dma, 6) ==> IdleUpTo(b.dma, 6);
  }

  /** The grant: the window is open and the firmware waits at this gate. */
  lemma GrantKeepsInv(h: Hw, k: Bank)
    requires Inv(h) && !Streaming(h) && Quiet(h) && ReadyAt(h, k) && Honest(h)
    ensures Inv(h.(mb := h.mb.(bankGrant := k))) && Honest(h.(mb := h.mb.(bankGrant := k)))
  {
    hide Masked, CpswPaused, EnginesIdle, WithinBank, AfterBanks, ActiveAt, Ends, BankLength;
  }

  /** bank_done reads k only once bank k's stream and drain are over. */
  lemma DoneMeansOver(h: Hw, k: Bank)
    requires Inv(h) && h.mb.bankGrant == k && h.mb.bankDone == k
    ensures !Streaming(h)
  {
    hide Quiet, WithinBank, AfterBanks, ActiveAt, Ends, BankLength, SafeEdges;
    assert LastBefore(h.mb.lengths, k) < k;
  }

  /** Stopping PRU0 ends every claim on it. */
  lemma StopKeepsInv(h: Hw)
    requires Inv(h)
    ensures Inv(h.(pru := h.pru.(running := false))) && !Streaming(h.(pru := h.pru.(running := false)))
  {
  }

  lemma MagicKeepsInv(h: Hw)
    requires Inv(h)
    ensures Inv(h.(mb := h.mb.(magic := 0)))
  {
    hide Masked, CpswPaused, EnginesIdle, WithinBank, AfterBanks, ActiveAt, Ends, BankLength;
  }

  /** Bank k was granted and its stream is over; everything the kernel owns is otherwise unchanged. */
  predicate BankOver(a: Hw, b: Hw, k: Bank) {
    SameOwned(a.(mb := a.mb.(bankGrant := k)), b) && Honest(b)
  }

  /** Bank k has not been granted in this transaction and has an admissible budget. */
  predicate Fresh(r: Request, k: Bank) {
    && k - 1 !in r.granted
    && |r.budget| == 3 && |r.elapsed| == 3
    && r.budget[k - 1] < BANK_MAX_CYCLES
  }

  /** Only the fields of one bank, the stage and the observed bank_done differ. */
  predicate BankFields(a: Request, b: Request, index: int) {
    && b == a.(stage := b.stage, granted := b.granted, completed := b.completed, timerFault := b.timerFault,
               elapsed := b.elapsed, bankDone := b.bankDone, restoreFailed := b.restoreFailed)
    && |a.elapsed| == 3 == |b.elapsed|
    && (forall j :: 0 <= j < 3 && j != index ==> b.elapsed[j] == a.elapsed[j])
    && a.completed <= b.completed <= a.completed + {index}
    && a.granted <= b.granted <= a.granted + {index}
    && a.restoreFailed <= b.restoreFailed <= a.restoreFailed + {index}
  }

  /** What running the grant routine for bank k reports: r before, q after. */
  predicate GrantFields(k: Bank, r: Request, q: Request, error: int) {
    var index := k - 1;
    && |r.elapsed| == 3 == |q.elapsed| && |r.budget| == 3
    && q == r.(granted := q.granted, completed := q.completed, timerFault := q.timerFault, elapsed := q.elapsed, bankDone := q.bankDone)
    && q.granted == r.granted + (if index in q.granted then {index} else {})
    && q.elapsed == r.elapsed[index := q.elapsed[index]]
    && r.completed <= q.completed <= r.completed + {index}
    && (error == 0 ==> index in q.granted && index in q.completed && q.bankDone == k && q.elapsed[index] >= r.budget[index])
    && (index !in q.granted ==> error == ETIME)
  }

  lemma FieldsKept(k: Bank, r: Request, window: Request, closed: Request, q: Request, failure: int)
    requires Fresh(r, k) && window == r.(stage := window.stage)
    requires GrantFields(k, window, closed, failure) || closed == window
    requires q == closed.(restoreFailed := q.restoreFailed)
    requires closed.restoreFailed <= q.restoreFailed <= closed.restoreFailed + {k - 1}
    ensures BankFields(r, q, k - 1)
  {
  }

  /** What try_bank has made of the hardware and the request before its common exit. */
  predicate BankTried(k: Bank, a: Hw, b: Hw, r: Request, q: Request, failure: int) {
    var granted := k - 1 in q.granted;
    && FieldsSet(k, r, q, failure)
    && (failure == 0 || !granted ==> !Streaming(b))
    && (if granted then SameOwned(a.(mb := a.mb.(bankGrant := k)), b) && Honest(b) else b == a.(dma := b.dma))
  }

  /** Either the grant routine has not run, or it has and the request says what it reported. */
  predicate FieldsSet(k: Bank, r: Request, q: Request, failure: int) {
    && (failure == 0 || failure in {ERANGE, ENODEV, EAGAIN, EBUSY, EIO, ETIMEDOUT, ETIME})
    && (GrantFields(k, r.(stage := q.stage), q, failure) || (failure != 0 && q == r.(stage := q.stage)))
    && (k - 1 in q.granted ==> failure in {0, ETIME, ETIMEDOUT})
  }

  lemma FieldsTried(k: Bank, r: Request, closed: Request, q: Request, failure: int)
    requires Fresh(r, k) && FieldsSet(k, r, closed, failure)
    requires q == closed.(restoreFailed := q.restoreFailed)
    requires closed.restoreFailed <= q.restoreFailed <= closed.restoreFailed + {k - 1}
    ensures BankFields(r, q, k - 1) && (k - 1 in q.granted <==> k - 1 in closed.granted)
    ensures failure == 0 ==> k - 1 in q.granted && k - 1 in q.completed && q.bankDone == k
                             && |q.budget| == 3 && q.elapsed[k - 1] >= q.budget[k - 1]
    ensures k - 1 in q.granted ==> failure in {0, ETIME, ETIMEDOUT}
    ensures closed.restoreFailed == r.restoreFailed
  {
    FieldsKept(k, r, r.(stage := closed.stage), closed, q, failure);
  }

  lemma SameOwnedDma(a: Hw, w: Hw, b: Hw, k: Bank)
    requires w == a.(dma := w.dma) && SameOwned(w.(mb := w.mb.(bankGrant := k)), b)
    ensures SameOwned(a.(mb := a.mb.(bankGrant := k)), b)
  {
  }

  lemma HonestDma(a: Hw, b: Hw)
    requires Honest(a) && b == a.(dma := b.dma, cpu := b.cpu)
    ensures Honest(b)
  {
  }

  lemma GrantedCpu(a: Hw, b: Hw, k: Bank)
    ensures SameOwned(a.(mb := a.mb.(bankGrant := k)), b) ==> b.cpu == a.cpu
  {
  }

  lemma GateKept(a: Hw, b: Hw, k: Bank)
    requires Inv(a) && !Streaming(a) && ReadyAt(a, k) && Kept(a, b)
    ensures b == a.(dma := b.dma)
  {
    GateIsParked(a, k);
  }

  lemma GateRely(a: Hw, b: Hw, k: Bank)
    requires Outside(a) && ReadyAt(a, k) && Rely(a, b)
    ensures b == a.(dma := b.dma) && Outside(b)
  {
    GateIsParked(a, k);
  }

  /** From the unmasked entry through the granted stream and the closing of the window. */
  lemma BankClosed(entry: Hw, masked: Hw, streamed: Hw, closed: Hw, k: Bank)
    requires masked == entry.(cpu := masked.cpu, dma := masked.dma) && Inv(streamed) && Honest(streamed)
    requires SameOwned(masked.(mb := masked.mb.(bankGrant := k)), streamed) && Kept(streamed, closed)
    ensures BankOver(entry, closed.(cpu := entry.cpu), k)
  {
    hide Inv, Streaming, Parked;
    HonestDma(closed, closed.(cpu := entry.cpu));
  }

  datatype Histories = Histories(grants: seq<int>, writes: seq<int>, bus: seq<BusOp>)

  /** What an attempt on bank k makes of the hardware: a before, b after. */
  predicate BankOutcome(k: Bank, a: Hw, b: Hw, r: Request, q: Request, error: int, stopped: bool) {
    var granted := k - 1 in q.granted;
    && BankFields(r, q, k - 1)
    && (!granted ==> error != 0 && !stopped && b == a.(dma := b.dma))
    && (stopped ==> granted && error != 0 && !b.pru.running && b.mb.magic == 0 && b.cpu == a.cpu)
    && (granted && !stopped ==> BankOver(a, b, k) && q.bankDone == k && k - 1 in q.completed
                                && |q.budget| == 3 && q.elapsed[k - 1] >= q.budget[k - 1])
    && (granted && !stopped ==> error == 0 || (error == EIO && k - 1 in q.restoreFailed))
    && (granted ==> error != EAGAIN)
    && (error != EIO ==> q.restoreFailed == r.restoreFailed)
  }

  /** CPSW has its entry control word back, or the failure to restore it is on record and fatal. */
  predicate CpswRestored(k: Bank, a: Dma, b: Dma, q: Request, error: int) {
    b.cpswControl == a.cpswControl || (error == EIO && k - 1 in q.restoreFailed)
  }

  /** The order in which it did so. */
  ghost predicate Logged(k: Bank, control: bv32, q: Request, stopped: bool, a: Histories, b: Histories) {
    var granted := k - 1 in q.granted;
    && b.grants == a.grants + (if granted then [k] else [])
    && b.writes == a.writes + (if granted then [60] else []) + (if stopped then [0] else [])
    && (granted ==> b.bus == a.bus + [WroteCpsw(WithIdle(control))]
                                   + (if stopped then [Disabled(0), WroteMagic] else []) + [WroteCpsw(control)])
  }

  lemma LogOf(k: Bank, q: Request, stopped: bool, saved: bv32, a: Histories, b: Histories)
    requires b.grants == a.grants + (if k - 1 in q.granted then [k] else [])
    requires b.writes == a.writes + (if k - 1 in q.granted then [60] else []) + (if stopped then [0] else [])
    requires k - 1 in q.granted ==> b.bus == a.bus + [WroteCpsw(WithIdle(saved))]
                                            + (if stopped then [Disabled(0), WroteMagic] else []) + [WroteCpsw(saved)]
    ensures Logged(k, saved, q, stopped, a, b)
  {
  }

  /** The part of the helper's state an admission loop speaks about. */
  datatype View = View(h: Hw, req: Request, grants: seq<int>, writes: seq<int>)

  predicate MayAttempt(ops: Ops, v: View) {
    && Outside(v.h)
    && (ops.BankGrant? ==> ReadyAt(v.h, ops.ordinal) && Honest(v.h) && Fresh(v.req, ops.ordinal))
  }

  /** What an attempt, or a whole admission loop, made of a. */
  predicate AttemptOutcome(ops: Ops, a: View, b: View, result: int, granted: bool, stopped: bool) {
    && Outside(b.h)
    && match ops
       case OtherDma => !granted && !stopped && Rely(a.h, b.h) && b == a.(h := b.h)
       case BankGrant(k) =>
         && (granted <==> k - 1 in b.req.granted)
         && BankOutcome(k, a.h, b.h, a.req, b.req, result, stopped)
         && b.grants == a.grants + (if granted then [k] else [])
         && b.writes == a.writes + (if granted then [60] else []) + (if stopped then [0] else [])
  }

  lemma WaitingBegins(ops: Ops, a: View)
    requires MayAttempt(ops, a)
    ensures AttemptOutcome(ops, a, a, EAGAIN, false, false)
  {
    RelyReflexive(a.h);
  }

  /** After attempts that granted nothing the loop is where it started. */
  lemma WaitingReady(ops: Ops, a: View, b: View)
    requires MayAttempt(ops, a) && AttemptOutcome(ops, a, b, EAGAIN, false, false)
    ensures MayAttempt(ops, b)
  {
    if ops.BankGrant? { HonestDma(a.h, b.h); }
    hide Inv, Streaming, Honest, Rely;
  }

  lemma AttemptAgain(ops: Ops, a: View, b: View, c: View, result: int, granted: bool, stopped: bool)
    requires MayAttempt(ops, a) && AttemptOutcome(ops, a, b, EAGAIN, false, false)
    requires AttemptOutcome(ops, b, c, result, granted, stopped)
    ensures AttemptOutcome(ops, a, c, result, granted, stopped) && (stopped ==> granted)
    ensures ops.OtherDma? ==> AttemptOutcome(ops, a, c, ETIMEDOUT, granted, stopped)
  {
    hide Inv, Streaming, Honest, Rely;
    if ops.OtherDma? { RelyTransitive(a.h, b.h, c.h); }
  }

  lemma Rejected(ops: Ops, a: View, b: View)
    requires AttemptOutcome(ops, a, b, EAGAIN, false, false)
    ensures AttemptOutcome(ops, a, b, ETIMEDOUT, false, false)
  {
    hide Inv, Streaming, Honest, Rely;
  }

  lemma PauseAgain(ops: Ops, a: View, b: View, h: Hw)
    requires MayAttempt(ops, a) && AttemptOutcome(ops, a, b, EAGAIN, false, false) && Rely(b.h, h)
    ensures AttemptOutcome(ops, a, b.(h := h), EAGAIN, false, false)
  {
    WaitingReady(ops, a, b);
    OutsideRely(b.h, h);
    if ops.OtherDma? { RelyTransitive(a.h, b.h, h); } else { GateRely(b.h, h, ops.ordinal); }
    hide Inv, Streaming, Honest, Rely;
  }

  lemma OutsideRely(a: Hw, b: Hw)
    requires Outside(a) && Rely(a, b)
    ensures Outside(b)
  {
  }

  /** The record of an admission loop that retried at the given readings. */
  function Retries(clocks: seq<int>): seq<Act> {
    if clocks == [] then []
    else Retries(clocks[..|clocks| - 1]) + [Clock(clocks[|clocks| - 1]), Tried(false, EAGAIN), Paused]
  }

  /** How an admission loop ends: attempts exhausted, a reading past the deadline, a terminal attempt, or
      a successful idle attempt followed by the final reading. */
  datatype Ending = Exhausted | Expired(now: int) | Terminal(now: int) | Observed(now: int, late: int)

  function Last(e: Ending, result: int, granted: bool): seq<Act> {
    match e
    case Exhausted => []
    case Expired(now) => [Clock(now)]
    case Terminal(now) => [Clock(now), Tried(granted, result)]
    case Observed(now, late) => [Clock(now), Tried(granted, 0), Clock(late)]
  }

  /** An admission loop that read the clock at `first`, retried at the readings `retries` and ended so. */
  function Record(first: int, retries: seq<int>, e: Ending, result: int, granted: bool): seq<Act> {
    [Clock(first)] + Retries(retries) + Last(e, result, granted)
  }

  /** Which such records an admission loop may leave. */
  predicate AdmissionRules(idleOnly: bool, result: int, granted: bool, first: int, retries: seq<int>, e: Ending) {
    var deadline := first + ADMISSION_TIMEOUT_NS;
    && (forall i :: 0 <= i < |retries| ==> retries[i] < deadline)
    && |retries| <= ADMISSION_MAX_ATTEMPTS
    && (e.Exhausted? <==> |retries| == ADMISSION_MAX_ATTEMPTS)
    && (match e
        case Exhausted => result == ETIMEDOUT && !granted
        case Expired(now) => now >= deadline && result == ETIMEDOUT && !granted
        case Terminal(now) => now < deadline && !(result == EAGAIN && !granted) && !(result == 0 && idleOnly)
        case Observed(now, late) => now < deadline && idleOnly && result == if late < deadline then 0 else ETIMEDOUT)
  }

  lemma NoRetries()
    ensures Retries([]) == []
  {
  }

  lemma RetriesNext(retries: seq<int>, now: int)
    ensures Retries(retries + [now]) == Retries(retries) + [Clock(now), Tried(false, EAGAIN), Paused]
  {
    assert (retries + [now])[..|retries|] == retries;
  }

  function Attempts(s: seq<Act>): nat {
    if s == [] then 0 else Attempts(s[..|s| - 1]) + if s[|s| - 1].Tried? then 1 else 0
  }

  lemma {:induction false} RetriesRecord(retries: seq<int>)
    ensures Attempts(Retries(retries)) == |retries|
    ensures |Retries(retries)| == 3 * |retries|
    ensures forall i :: 0 <= i < |Retries(retries)| && Retries(retries)[i].Tried? ==> Retries(retries)[i] == Tried(false, EAGAIN)
  {
    if retries != [] {
      var before := Retries(retries[..|retries| - 1]);
      var now := retries[|retries| - 1];
      RetriesRecord(retries[..|retries| - 1]);
      var step := [Clock(now), Tried(false, EAGAIN), Paused];
      assert step[..2] == [Clock(now), Tried(false, EAGAIN)] && step[..2][..1] == [Clock(now)] && step[..1][..0] == [];
      AttemptsAdd(before, step);
      assert Attempts(step) == Attempts(step[..2]) == Attempts(step[..2][..1]) + 1 == 1;
    }
  }

  lemma {:induction false} AttemptsAdd(a: seq<Act>, b: seq<Act>)
    ensures Attempts(a + b) == Attempts(a) + Attempts(b)
  {
    if b == [] {
      assert a + b == a;
    } else {
      assert (a + b)[..|a + b| - 1] == a + b[..|b| - 1];
      AttemptsAdd(a, b[..|b| - 1]);
    }
  }

  lemma AttemptsNext(s: seq<Act>, x: Act)
    ensures Attempts(s + [x]) == Attempts(s) + if x.Tried? then 1 else 0
  {
    assert (s + [x])[..|s|] == s;
  }

  lemma LastAttempts(e: Ending, result: int, granted: bool)
    ensures Attempts(Last(e, result, granted)) == if e.Terminal? || e.Observed? then 1 else 0
  {
    match e
    case Exhausted =>
    case Expired(now) => FirstAttempts(now);
    case Terminal(now) =>
      FirstAttempts(now);
      AttemptsNext([Clock(now)], Tried(granted, result));
      assert [Clock(now)] + [Tried(granted, result)] == [Clock(now), Tried(granted, result)];
    case Observed(now, late) =>
      FirstAttempts(now);
      AttemptsNext([Clock(now)], Tried(granted, 0));
      assert [Clock(now)] + [Tried(granted, 0)] == [Clock(now), Tried(granted, 0)];
      AttemptsNext([Clock(now), Tried(granted, 0)], Clock(late));
      assert [Clock(now), Tried(granted, 0)] + [Clock(late)] == [Clock(now), Tried(granted, 0), Clock(late)];
  }

  lemma FirstAttempts(first: int)
    ensures Attempts([Clock(first)]) == 0
  {
    AttemptsNext([], Clock(first));
    assert [] + [Clock(first)] == [Clock(first)];
  }

  lemma RecordAttempts(first: int, retries: seq<int>, e: Ending, result: int, granted: bool)
    ensures Attempts(Record(first, retries, e, result, granted)) == |retries| + if e.Terminal? || e.Observed? then 1 else 0
  {
    hide Attempts, Retries, Last;
    RetriesRecord(retries);
    FirstAttempts(first);
    LastAttempts(e, result, granted);
    AttemptsAdd([Clock(first)], Retries(retries));
    AttemptsAdd([Clock(first)] + Retries(retries), Last(e, result, granted));
  }

  /** An attempt in a record is a retry that granted nothing, or the last one. */
  lemma RecordGrants(first: int, retries: seq<int>, e: Ending, result: int, granted: bool, i: nat)
    requires var s := Record(first, retries, e, result, granted); i < |s| && s[i].Tried? && s[i].granted
    ensures var s := Record(first, retries, e, result, granted);
            && granted && i == |s| - |Last(e, result, granted)| + 1 && s[i] == Last(e, result, granted)[1]
            && |Last(e, result, granted)| >= 2
  {
    hide Retries;
    RetriesRecord(retries);
    var last, prefix := Last(e, result, granted), [Clock(first)] + Retries(retries);
    var s := Record(first, retries, e, result, granted);
    assert s == prefix + last;
    forall j | 0 <= j < |prefix| && prefix[j].Tried? ensures !prefix[j].granted {
      assert prefix[j] == Retries(retries)[j - 1];
    }
    assert i >= |prefix| && s[i] == last[i - |prefix|];
  }

  /** For every clock and every behaviour of the attempts: at most 10000 attempts are made; an attempt that
      granted is the last of them and nothing, in particular no pause, follows it except in an idle-only
      wait its final clock reading; and an idle-only success was read off the clock before the deadline
      and after the attempt. */
  lemma AdmissionBounded(s: seq<Act>, idleOnly: bool, result: int, granted: bool, first: int, retries: seq<int>, e: Ending)
    requires AdmissionRules(idleOnly, result, granted, first, retries, e)
    requires s == Record(first, retries, e, result, granted)
    ensures Attempts(s) <= ADMISSION_MAX_ATTEMPTS
    ensures forall i :: 0 <= i < |s| && s[i].Tried? && s[i].granted ==>
              i >= |s| - 2 && granted && forall j :: i < j < |s| ==> s[j].Clock?
    ensures !idleOnly ==> forall i :: 0 <= i < |s| && s[i].Tried? && s[i].granted ==> i == |s| - 1 && s[i].result == result
    ensures idleOnly && result == 0 ==>
              |s| >= 2 && s[|s| - 2] == Tried(granted, 0) && s[|s| - 1].Clock?
              && s[0].Clock? && s[|s| - 1].now < s[0].now + ADMISSION_TIMEOUT_NS
    ensures result == EAGAIN ==> granted
  {
    RecordAttempts(first, retries, e, result, granted);
    hide Attempts, Retries;
    var last := Last(e, result, granted);
    assert s[|s| - |last|..] == last;
    forall i | 0 <= i < |s| && s[i].Tried? && s[i].granted
      ensures i >= |s| - 2 && granted && (forall j :: i < j < |s| ==> s[j].Clock?)
      ensures !idleOnly ==> i == |s| - 1 && s[i].result == result
    {
      RecordGrants(first, retries, e, result, granted, i);
      if i < |s| - 1 { assert s[|s| - 1] == last[2]; }
    }
  }

  /** Between a and b, both masked with the firmware waiting, only DMA and control words have changed. */
  predicate Held(a: Hw, b: Hw) {
    && Inv(b) && !Streaming(b) && Parked(b) && Masked(b.cpu)
    && b == a.(dma := b.dma)
    && b.dma.prussClock == a.dma.prussClock && b.dma.cpswClock == a.dma.cpswClock
  }

  /** The kernel's own change to DMA registers, made while no stream is on. */
  lemma DmaKept(a: Hw, b: Hw, d: Dma)
    requires Kept(a, b) && !Streaming(a) && Wired(d)
    ensures Kept(a, b.(dma := d)) && !Streaming(b.(dma := d))
  {
    CalmChange(b, d, b.cpu);
    hide Inv, Streaming, Quiet;
  }

  lemma PausedByBits(d: Dma)
    ensures CpswPaused(d) <==> CommandsIdle(d.cpswControl) && ReportsIdle(d.cpswStatus)
  {
  }

  lemma HeldRely(a: Hw, b: Hw, c: Hw)
    requires Held(a, b) && Rely(b, c)
    ensures Held(a, c) && Frozen(b.dma, c.dma)
  {
    hide Inv, Streaming, IdleUpTo, CpswPaused;
  }

  lemma HeldStatus(a: Hw, b: Hw, status: bv32)
    requires Held(a, b)
    ensures Held(a, b.(dma := b.dma.(cpswStatus := status)))
  {
    assert Wired(b.dma);
    CalmChange(b, b.dma.(cpswStatus := status), b.cpu);
    hide Inv, Streaming;
  }

  lemma RelyCalm(a: Hw, b: Hw)
    requires Rely(a, b) && !Streaming(a)
    ensures !Streaming(b) && b.sent == a.sent && b.edges == a.edges
  {
  }

  lemma WiredInv(h: Hw)
    requires Inv(h)
    ensures Wired(h.dma)
  {
  }

  // ---------------------------------------------------------------- failed_frame_cleanup

  /** The part of the register log made while waiting for the cores: run-state readings, and a reset of a
      core only directly after its run state was read clear, once per stopped core. */
  ghost predicate StopLog(log: seq<BusOp>, stopped: set<int>) {
    && stopped <= {0, 1}
    && (forall i :: 0 <= i < |log| ==> (log[i].SawCore? || log[i].Reset?) && log[i].core < 2)
    && (forall i :: 0 <= i < |log| && log[i].Reset? ==> i > 0 && log[i - 1] == SawCore(log[i].core, false))
    && (forall c: nat :: c in stopped <==> Reset(c) in log)
    && (forall i, j :: 0 <= i < j < |log| && log[i].Reset? && log[j].Reset? ==> log[i].core != log[j].core)
  }

  lemma StopLogGrows(log: seq<BusOp>, stopped: set<int>, core: nat, running: bool)
    requires StopLog(log, stopped) && core < 2 && core !in stopped
    ensures StopLog(log + [SawCore(core, running)], stopped)
    ensures StopLog(log + [SawCore(core, false), Reset(core)], stopped + {core})
  {
    StopLogReads(log, stopped, core, running);
    StopLogReads(log, stopped, core, false);
    StopLogResets(log + [SawCore(core, false)], stopped, core);
    assert log + [SawCore(core, false)] + [Reset(core)] == log + [SawCore(core, false), Reset(core)];
    hide StopLog;
  }

  lemma StopLogReads(log: seq<BusOp>, stopped: set<int>, core: nat, running: bool)
    requires StopLog(log, stopped) && core < 2
    ensures StopLog(log + [SawCore(core, running)], stopped)
  {
  }

  lemma StopLogResets(log: seq<BusOp>, stopped: set<int>, core: nat)
    requires StopLog(log, stopped) && core < 2 && core !in stopped && log != [] && log[|log| - 1] == SawCore(core, false)
    ensures StopLog(log + [Reset(core)], stopped + {core})
  {
    assert Reset(core) !in log;
    assert (log + [Reset(core)])[|log|] == Reset(core);
  }

  /** Core 0 takes no further step: it has been disabled, or its program has ended in HALT. Only then can its
      run state read clear. */
  predicate CanReadStopped(h: Hw) {
    !h.pru.running || h.pru.loc == Fail(Halted)
  }

  /** What one polling round reads of each core's run state, if it reads it. */
  datatype Round = Round(core0: bool, core1: bool)

  /** The register log of the polling so far and the cores it has reset. */
  datatype Polling = Polling(log: seq<BusOp>, stopped: set<int>)

  function CorePolled(p: Polling, core: nat, running: bool): Polling {
    if core in p.stopped then p
    else if running then p.(log := p.log + [SawCore(core, true)])
    else Polling(p.log + [SawCore(core, false), Reset(core)], p.stopped + {core})
  }

  /** What the polling phase makes of the readings of its rounds. */
  function Polled(rounds: seq<Round>): Polling {
    if rounds == [] then Polling([], {})
    else
      var n := |rounds| - 1;
      CorePolled(CorePolled(Polled(rounds[..n]), 0, rounds[n].core0), 1, rounds[n].core1)
  }

  lemma PolledNext(rounds: seq<Round>, r: Round)
    ensures Polled(rounds + [r]) == CorePolled(CorePolled(Polled(rounds), 0, r.core0), 1, r.core1)
  {
    assert (rounds + [r])[..|rounds|] == rounds;
  }

  lemma NothingPolled()
    ensures Polled([]) == Polling([], {})
  {
  }

  /** For all readings: a core is reset only directly after its run state read clear, and once. */
  lemma {:induction false} PolledIsStopLog(rounds: seq<Round>)
    ensures StopLog(Polled(rounds).log, Polled(rounds).stopped) && |Polled(rounds).log| <= 4 * |rounds|
  {
    if rounds == [] {
      NothingStopped();
    } else {
      var n := |rounds| - 1;
      PolledIsStopLog(rounds[..n]);
      var p := Polled(rounds[..n]);
      CorePolledIsStopLog(p, 0, rounds[n].core0);
      CorePolledIsStopLog(CorePolled(p, 0, rounds[n].core0), 1, rounds[n].core1);
    }
  }

  lemma CorePolledIsStopLog(p: Polling, core: nat, running: bool)
    requires StopLog(p.log, p.stopped) && core < 2
    ensures var q := CorePolled(p, core, running); StopLog(q.log, q.stopped) && |q.log| <= |p.log| + 2
  {
    if core !in p.stopped { StopLogGrows(p.log, p.stopped, core, running); }
  }

  /** All register writes of a failed frame's cleanup: `functional` is what its first window read of the
      PRUSS clock. */
  function CleanupLog(functional: bool, rounds: seq<Round>): seq<BusOp> {
    (if functional then [WroteMagic, Disabled(0), Disabled(1)] else []) + Polled(rounds).log
  }

  /** No core is reset before it has been disabled. */
  predicate DisabledFirst(log: seq<BusOp>) {
    forall i :: 0 <= i < |log| && log[i].Reset? ==> Disabled(log[i].core) in log[..i]
  }

  /** For every clock reading and all run states read: no core is reset undisabled if and only if the first
      window found the PRUSS clocked or no core is reset at all. */
  lemma DisablesExact(functional: bool, rounds: seq<Round>)
    ensures DisabledFirst(CleanupLog(functional, rounds)) <==> functional || Polled(rounds).stopped == {}
  {
    hide Polled, StopLog, DisabledFirst;
    PolledIsStopLog(rounds);
    var p := Polled(rounds);
    if functional {
      DisabledBefore(p.log, p.stopped);
    } else {
      assert CleanupLog(false, rounds) == p.log;
      NeverDisabled(p.log, p.stopped);
    }
  }

  lemma DisabledBefore(log: seq<BusOp>, stopped: set<int>)
    requires StopLog(log, stopped)
    ensures DisabledFirst([WroteMagic, Disabled(0), Disabled(1)] + log)
  {
    var all := [WroteMagic, Disabled(0), Disabled(1)] + log;
    forall i | 0 <= i < |all| && all[i].Reset? ensures Disabled(all[i].core) in all[..i] {
      assert all[i] == log[i - 3];
      assert all[..i][1 + all[i].core] == Disabled(all[i].core);
    }
  }

  lemma NeverDisabled(log: seq<BusOp>, stopped: set<int>)
    requires StopLog(log, stopped)
    ensures DisabledFirst(log) <==> stopped == {}
  {
    forall i | 0 <= i < |log| && log[i].Reset? ensures log[i].core in stopped {
      assert log[i] == Reset(log[i].core);
    }
    if stopped != {} {
      var c :| c in stopped;
      var core: nat := c;
      assert Reset(core) in log;
      var i :| 0 <= i < |log| && log[i] == Reset(core);
      assert forall j :: 0 <= j < i ==> !log[j].Disabled?;
    }
  }

  /** The input: a PRU0 halted by a failed bank clear, not yet disabled, behind a PRUSS whose clock is not
      functional when the cleanup begins and functional again when it polls. Core 0 is then reset without
      ever having been disabled. */
  lemma ResetWithoutDisable() returns (h: Hw, woken: Dma, rounds: seq<Round>)
    ensures Outside(h) && h.pru.running && h.pru.loc == Fail(Halted) && CanReadStopped(h)
    ensures !Functional(h.dma.prussClock) && Functional(Step(h, Drift(woken)).dma.prussClock)
    ensures var log := CleanupLog(Functional(h.dma.prussClock), rounds); Reset(0) in log && forall i :: Disabled(i) !in log
  {
    var m := Mailbox(COMMAND_MAGIC, ABI_VERSION, WS2812B, [1, 0, 0, 0, 0, 0], 0, 1, 0, ERROR, ERROR_BANK_CLEAR, 0, 1, 0, 1);
    var p := Pru(true, Fail(Halted), 1, 0, [1, 0, 0, 0, 0, 0], NONE, 1, 0, 1, ERROR_BANK_CLEAR);
    var gated := Dma(0, 2, [2, 2, 2], [2, 2, 2, 2, 2, 2], [0, 0, 0, 0, 0, 0], 0, 0);
    h := Hw(m, p, gated, Cpu(false, false, 0), NONE, [], [[], [], [], [], [], []], [[], [], [], [], [], []]);
    woken := gated.(prussClock := 2);
    rounds := [Round(false, true)];
    PolledNext([], Round(false, true));
    NothingPolled();
    assert [] + [Round(false, true)] == [Round(false, true)];
    var log := CleanupLog(false, rounds);
    assert log == [SawCore(0, false), Reset(0), SawCore(1, true)];
    assert log[1] == Reset(0);
  }

  /** What polling and resetting the cores keeps: the mailbox header, the CPU state and, once core 0 has
      stopped, everything but DMA activity. */
  predicate Coasts(a: Hw, b: Hw) {
    && Inv(b) && !Streaming(b) && b.cpu == a.cpu && b.mb.magic == a.mb.magic
    && (!a.pru.running ==> b == a.(dma := b.dma))
  }

  lemma CoastsRely(a: Hw, b: Hw, c: Hw)
    requires Coasts(a, b) && Rely(b, c)
    ensures Coasts(a, c)
  {
    RelyCalm(b, c);
    OwnedRely(b, c);
    if !b.pru.running { StoppedStays(b, c); }
    RelyInv(b, c);
  }

  lemma CoastsFrom(a: Hw)
    requires Inv(a) && !Streaming(a)
    ensures Coasts(a, a)
  {
  }

  lemma CoastsReset(a: Hw, b: Hw)
    requires Coasts(a, b)
    ensures Coasts(a, b.(pru := b.pru.(running := false)))
  {
    StopKeepsInv(b);
  }

  /** Across a masked window: a before, `entry` when the CPU was masked, b just before it is unmasked. */
  lemma CoastsBracket(a: Hw, entry: Hw, b: Hw)
    requires Outside(a) && Rely(a, entry) && Coasts(WithMask(entry), b)
    ensures Coasts(a, b.(cpu := a.cpu)) && Outside(b.(cpu := a.cpu))
  {
    OwnedRely(a, entry);
    CalmChange(b, b.dma, a.cpu);
    if !a.pru.running { StoppedStays(a, entry); }
  }

  lemma CoastsInv(a: Hw, b: Hw)
    requires Coasts(a, b)
    ensures Inv(b) && !Streaming(b)
  {
  }

  lemma CoastsFields(a: Hw, b: Hw)
    requires Coasts(a, b)
    ensures b.cpu == a.cpu && b.mb.magic == a.mb.magic && (!a.pru.running ==> !b.pru.running)
  {
  }

  lemma OutsideCoasts(h: Hw)
    requires Outside(h)
    ensures Coasts(h, h)
  {
  }

  lemma CoastsThen(a: Hw, b: Hw, c: Hw)
    requires Coasts(a, b) && Coasts(b, c)
    ensures Coasts(a, c)
  {
    hide Inv, Streaming;
  }

  /** The ordinal of the GPIO block a cleanup index names: GPIO0, GPIO1, GPIO2 are banks 3, 2, 1. */
  function OrdinalOf(gpio: nat): Bank
    requires gpio < 3
  {
    3 - gpio
  }

  predicate ReadsLow(h: Hw, gpio: nat)
    requires gpio < 3
  {
    And(h.high, BankPins(OrdinalOf(gpio))) == NONE
  }

  /** The verdicts on the first n GPIO blocks: each is low or failed, never both, and a low one stays low
      once PRU0 is stopped. */
  ghost predicate BanksJudged(h: Hw, low: set<int>, failed: set<int>, n: nat)
    requires n <= 3
  {
    && (forall b :: b in low ==> 0 <= b < n)
    && (forall b :: b in failed ==> 0 <= b <= n)
    && (forall b: nat :: b < n ==> (b in low <==> b + 1 !in failed))
    && (!h.pru.running ==> forall b: nat :: b < n && b in low ==> ReadsLow(h, b))
  }

  /** Nothing but DMA state and GPIO latches changed, unless PRU0 still runs. */
  predicate Drained(a: Hw, b: Hw) {
    && Inv(b) && !Streaming(b) && b.cpu == a.cpu && b.pru.running == a.pru.running
    && (!a.pru.running ==> b == a.(dma := b.dma, high := b.high))
  }

  lemma DrainedRely(a: Hw, b: Hw, c: Hw)
    requires Drained(a, b) && Rely(b, c)
    ensures Drained(a, c) && (!b.pru.running ==> c.high == b.high)
  {
    hide Inv, Honest, Settled, Frozen;
  }

  lemma DrainedEntry(a: Hw, entry: Hw)
    requires Outside(a) && Rely(a, entry)
    ensures Drained(a, entry) && entry.cpu == a.cpu
  {
    OutsideRely(a, entry);
    OwnedRely(a, entry);
    if !a.pru.running { StoppedStays(a, entry); }
  }

  lemma LatchKeepsInv(h: Hw, high: Pins)
    requires Inv(h) && !Streaming(h)
    ensures Inv(h.(high := high)) && !Streaming(h.(high := high))
  {
    hide EnginesIdle, CpswPaused, WithinBank, AfterBanks, ActiveAt, Ends, BankLength;
  }

  lemma StillLow(h: Hw, k: Bank, gpio: nat)
    requires gpio < 3 && ReadsLow(h, gpio)
    ensures ReadsLow(h.(high := AndNot(h.high, BankPins(k))), gpio)
  {
    NoneIsNone(And(h.high, BankPins(OrdinalOf(gpio))));
    NoneIsNone(And(AndNot(h.high, BankPins(k)), BankPins(OrdinalOf(gpio))));
    var before, after := And(h.high, BankPins(OrdinalOf(gpio))), And(AndNot(h.high, BankPins(k)), BankPins(OrdinalOf(gpio)));
    assert forall p :: 0 <= p < 6 ==> !before[p] ==> !after[p];
  }

  lemma ClearedIsLow(h: Hw, gpio: nat)
    requires gpio < 3
    ensures ReadsLow(h.(high := AndNot(h.high, BankPins(OrdinalOf(gpio)))), gpio)
  {
    var k := OrdinalOf(gpio);
    NoneIsNone(And(AndNot(h.high, BankPins(k)), BankPins(k)));
  }

  lemma OutsideInv(h: Hw)
    requires Outside(h)
    ensures Inv(h)
  {
  }

  /** One more block judged, after a change that raised no low block. */
  lemma Judge(a: Hw, b: Hw, low: set<int>, failed: set<int>, n: nat, verdict: bool)
    requires n < 3 && BanksJudged(a, low, failed, n) && b.pru.running == a.pru.running
    requires !b.pru.running ==> forall g: nat :: g < 3 && ReadsLow(a, g) ==> ReadsLow(b, g)
    requires verdict && !b.pru.running ==> ReadsLow(b, n)
    ensures if verdict then BanksJudged(b, low + {n}, failed, n + 1) else BanksJudged(b, low, failed + {n + 1}, n + 1)
  {
    hide ReadsLow;
  }

  lemma NothingJudged(h: Hw, failed: set<int>)
    requires failed <= {0}
    ensures BanksJudged(h, {}, failed, 0)
  {
  }

  lemma JudgedCpu(h: Hw, c: Cpu, low: set<int>, failed: set<int>)
    ensures BanksJudged(h, low, failed, 3) ==> BanksJudged(h.(cpu := c), low, failed, 3)
  {
    assert forall g: nat :: g < 3 ==> ReadsLow(h.(cpu := c), g) == ReadsLow(h, g);
  }

  lemma NothingStopped()
    ensures StopLog([], {})
  {
  }

  lemma LowRely(a: Hw, b: Hw)
    requires Rely(a, b)
    ensures !a.pru.running ==> b.high == a.high
    ensures !a.pru.running ==> forall g: nat :: g < 3 && ReadsLow(a, g) ==> ReadsLow(b, g)
  {
    hide Inv;
  }

  lemma OwnedRely(a: Hw, b: Hw)
    requires Rely(a, b)
    ensures SameOwned(a, b)
  {
  }

  lemma StoppedStays(a: Hw, b: Hw)
    requires Rely(a, b) && !a.pru.running
    ensures b == a.(dma := b.dma)
  {
  }

  // ---------------------------------------------------------------- perform_send

  /** The result half of a request as quiet_ioctl clears it. */
  predicate Zeroed(r: Request) {
    && !r.submitted && r.budget == [0, 0, 0] && r.elapsed == [0, 0, 0]
    && r.granted == {} && r.completed == {} && r.timerFault == {} && r.restoreFailed == {}
    && r.cleanupFailed == {} && r.cleanupStopped == {} && r.cleanupLow == {}
  }

  predicate SameConfiguration(a: Hw, b: Hw) {
    && b.mb.magic == a.mb.magic && b.mb.abiVersion == a.mb.abiVersion && b.mb.profile == a.mb.profile
    && b.mb.lengths == a.mb.lengths && b.cpu == a.cpu && b.pru.running == a.pru.running
  }

  /** Between publication and completion of request r, published in state a. */
  predicate InFrame(a: Hw, b: Hw, color: u32, seqNo: u32) {
    && Outside(b) && Honest(b) && SameConfiguration(a, b)
    && b.base == a.sent && b.mb.wireColor == color && b.mb.requestSeq == seqNo
  }

  lemma FrameRely(a: Hw, b: Hw, c: Hw, color: u32, seqNo: u32)
    requires InFrame(a, b, color, seqNo) && Rely(b, c)
    ensures InFrame(a, c, color, seqNo)
  {
    OutsideRely(b, c);
    hide Inv, Streaming;
  }

  lemma FrameBank(a: Hw, b: Hw, c: Hw, color: u32, seqNo: u32, k: Bank)
    requires InFrame(a, b, color, seqNo) && BankOver(b, c, k) && Outside(c)
    ensures InFrame(a, c, color, seqNo)
  {
    hide Inv, Streaming, Honest;
  }

  lemma GrantedWord(a: Hw, b: Hw, k: Bank)
    requires BankOver(a, b, k)
    ensures b.mb.bankGrant == k
  {
  }

  /** The indices of the nonempty banks below ordinal k. */
  function Indices(n: Lengths, k: nat): set<int> {
    (if k >= 2 && BankLength(n, 1) != 0 then {0} else {}) +
    (if k >= 3 && BankLength(n, 2) != 0 then {1} else {}) +
    (if k >= 4 && BankLength(n, 3) != 0 then {2} else {})
  }

  /** All banks below k were granted, completed and had their cycles. */
  predicate BanksDone(r: Request, k: nat) {
    && r.granted == Indices(r.input.lengths, k) && r.completed == r.granted
    && r.restoreFailed == {} && |r.budget| == 3 == |r.elapsed|
    && forall i :: 0 <= i < 3 && i in r.granted ==> r.elapsed[i] >= r.budget[i]
  }

  lemma IndicesNext(n: Lengths, k: Bank)
    ensures Indices(n, k as int + 1) == Indices(n, k) + (if BankLength(n, k) != 0 then {k - 1} else {})
    ensures EnabledBefore(n, k as int + 1) == EnabledBefore(n, k) + (if BankLength(n, k) != 0 then [k] else [])
  {
  }

  lemma BankNext(r: Request, q: Request, k: Bank, a: Hw, b: Hw)
    requires BanksDone(r, k) && BankLength(r.input.lengths, k) != 0
    requires BankOutcome(k, a, b, r, q, 0, false) && q.input == r.input
    ensures BanksDone(q, k as int + 1)
  {
    IndicesNext(r.input.lengths, k);
    hide BankOver;
    assert q.completed == q.granted;
  }

  /** Only what the banks report differs. */
  predicate SameButBanks(a: Request, b: Request) {
    b == a.(stage := b.stage, granted := b.granted, completed := b.completed, timerFault := b.timerFault,
            elapsed := b.elapsed, bankDone := b.bankDone, restoreFailed := b.restoreFailed)
  }

  /** The three writes of a publication, on an idle firmware. */
  lemma PublishKeepsInv(h: Hw, color: u32)
    requires Inv(h) && Idle(h) && !Streaming(h) && Settled(h) && color <= 0xff_ffff
    ensures var g := h.(mb := h.mb.(bankGrant := 0)); Inv(g) && Idle(g) && Parked(g) && Settled(g) && !Streaming(g)
    ensures var g := h.(mb := h.mb.(wireColor := color)); Inv(g) && Idle(g) && Parked(g) && Settled(g) && !Streaming(g)
    ensures h.mb.bankGrant == 0 && h.mb.wireColor == color ==>
              var g := h.(mb := h.mb.(requestSeq := Succ(h.mb.requestSeq)), base := h.sent);
              Inv(g) && Honest(g) && !Streaming(g)
  {
    hide Quiet, WithinBank, AfterBanks, ActiveAt, Ends, BankLength;
  }

  lemma IdleRely(a: Hw, b: Hw)
    requires Idle(a) && !Streaming(a) && Rely(a, b)
    ensures b == a.(dma := b.dma) && Inv(b) && !Streaming(b) && Idle(b)
    ensures Settled(a) ==> Settled(b)
  {
  }

  /** An honest completion announced as DONE leaves a mailbox both validators accept. */
  lemma DoneIsReady(h: Hw)
    requires Inv(h) && Honest(h) && Settled(h) && Idle(h) && h.mb.status == DONE
    requires h.mb.magic == COMMAND_MAGIC && h.mb.abiVersion == ABI_VERSION && ValidProfile(h.mb.profile) && ValidLengths(h.mb.lengths)
    ensures CheckMailbox(h.mb) == OK
  {
    hide Quiet, WithinBank, AfterBanks, ActiveAt, Ends, SafeEdges;
    assert LastBank(h.mb.lengths) <= 3;
  }

  /** Budgets for every bank, as the length demands. */
  predicate Budgeted(r: Request) {
    && |r.budget| == 3 == |r.elapsed|
    && ValidLengths(r.input.lengths)
    && forall i :: 0 <= i < 3 ==> r.budget[i] == Budget(BankLength(r.input.lengths, i + 1))
  }

  /** The frame is complete: the state b after a successful send of color from state a. */
  predicate FrameSent(a: Hw, b: Hw, color: u32) {
    && SameConfiguration(a, b) && Settled(b) && b.pru.running
    && b.mb.requestSeq == Succ(a.mb.requestSeq) && b.mb.acceptedSeq == b.mb.requestSeq
    && b.mb.wireColor == color
    && b.mb.bankGrant == LastBank(a.mb.lengths) && b.mb.bankDone == LastBank(a.mb.lengths)
    && b.sent == AfterBanks(a.sent, a.mb.lengths, color, 3)
  }

  /** The grant word and the run state before the snapshot, from those after it. */
  lemma SameGrant(a: Hw, b: Hw, begin: Hw, color: u32)
    requires SameOwned(a, b) && FrameSent(begin, b, color)
    ensures a.pru.running && a.mb.bankGrant == LastBank(begin.mb.lengths)
  {
  }

  lemma SettledFrame(a: Hw, b: Hw, color: u32)
    requires InFrame(a, b, color, Succ(a.mb.requestSeq)) && Settled(b)
    ensures FrameSent(a, b, color)
  {
    hide Inv, Streaming;
  }

  /** The gate of bank k was seen: the bank may be attempted. */
  lemma BankMayBegin(v: View, k: Bank)
    requires Outside(v.h) && Honest(v.h) && ReadyAt(v.h, k) && BanksDone(v.req, k) && v.req.budget[k - 1] < BANK_MAX_CYCLES
    ensures MayAttempt(BankGrant(k), v)
  {
  }

  lemma BankSucceeds(begin: Hw, a: View, b: View, color: u32, seqNo: u32, k: Bank, granted: bool, stopped: bool)
    requires InFrame(begin, a.h, color, seqNo) && BanksDone(a.req, k) && BankLength(a.req.input.lengths, k) != 0
    requires AttemptOutcome(BankGrant(k), a, b, 0, granted, stopped)
    ensures granted && InFrame(begin, b.h, color, seqNo) && BanksDone(b.req, k as int + 1) && SameButBanks(a.req, b.req)
    ensures b.grants == a.grants + [k] && b.h.mb.bankGrant == k
  {
    hide Inv, Streaming, Honest, BankOver;
    assert granted && !stopped;
    assert b.h.mb.bankGrant == k by { GrantedWord(a.h, b.h, k); }
    FrameBank(begin, a.h, b.h, color, seqNo, k);
    BankNext(a.req, b.req, k, a.h, b.h);
  }

  lemma BankFails(a: View, b: View, k: Bank, error: int, granted: bool, stopped: bool)
    requires AttemptOutcome(BankGrant(k), a, b, error, granted, stopped) && a.req.restoreFailed == {}
    ensures Outside(b.h) && b.h.cpu == a.h.cpu && SameButBanks(a.req, b.req)
    ensures b.grants == a.grants + (if granted then [k] else [])
    ensures b.req.restoreFailed != {} ==> error == EIO
  {
    hide Inv, Streaming, Honest;
    if granted && !stopped { hide Outside; }
  }

  lemma NoBanks(r: Request)
    requires r.granted == r.completed == r.restoreFailed == {} && |r.budget| == 3 == |r.elapsed|
    ensures BanksDone(r, 1)
  {
  }

  lemma NoneEnabled(n: Lengths)
    ensures EnabledBefore(n, 1) == []
  {
  }

  lemma SettledRely(a: Hw, b: Hw)
    requires Rely(a, b) && Settled(a)
    ensures Settled(b)
  {
  }

  lemma SettledCpu(a: Hw, b: Hw)
    requires b == a.(cpu := b.cpu)
    ensures Settled(b) == Settled(a) && Idle(b) == Idle(a)
  {
  }

  /** A snapshot that shows the request complete and DONE was taken of an idle firmware and is exact. */
  predicate Announced(r: Request, h: Hw) {
    r.completionSeq == r.requestSeq && r.status == DONE ==> Idle(h) && SnapshotExact(r, h.mb)
  }

  /** What a cleanup leaves: every GPIO block judged, and with bit 0 clear both cores stopped. */
  ghost predicate Recovered(h: Hw, r: Request) {
    && BanksJudged(h, r.cleanupLow, r.cleanupFailed, 3)
    && (0 in r.cleanupStopped ==> !h.pru.running)
    && (0 !in r.cleanupFailed ==> r.cleanupStopped == {0, 1} && !h.pru.running && h.mb.magic == 0)
  }

  lemma AllLow(h: Hw)
    requires ReadsLow(h, 0) && ReadsLow(h, 1) && ReadsLow(h, 2)
    ensures h.high == NONE
  {
    NoneIsNone(And(h.high, BankPins(1)));
    NoneIsNone(And(h.high, BankPins(2)));
    NoneIsNone(And(h.high, BankPins(3)));
    forall p | 0 <= p < 6 ensures !h.high[p] {
      assert And(h.high, BankPins(BankOfPin(p)))[p] == h.high[p];
    }
    NoneIsNone(h.high);
  }

  /** An empty failure mask is a full recovery: both cores stopped, mailbox invalid, all LED pins low. */
  lemma EmptyMaskMeansSafe(h: Hw, r: Request)
    requires Recovered(h, r) && r.cleanupFailed == {}
    ensures r.cleanupStopped == {0, 1} && r.cleanupLow == {0, 1, 2}
    ensures !h.pru.running && h.mb.magic == 0 && h.high == NONE
  {
    forall b: nat | b < 3 ensures b in r.cleanupLow && ReadsLow(h, b) { assert b + 1 !in r.cleanupFailed; }
    assert 0 in r.cleanupLow && 1 in r.cleanupLow && 2 in r.cleanupLow;
    forall b | b in r.cleanupLow ensures b in {0, 1, 2} {}
    AllLow(h);
  }

  // ---------------------------------------------------------------- the contract of the whole transaction

  /** A send that was never published left everything as it was. */
  predicate NothingSent(a: View, b: View) {
    Rely(a.h, b.h) && b.grants == a.grants && b.writes == a.writes
  }

  /** A successful send from a to b. Unless all lengths are zero and the request followed another the
      snapshot it returns shows the completion; and whenever the snapshot it returns shows DONE, the firmware is idle again and both validators accept the next send. */
  predicate SendComplete(a: View, b: View) {
    var r := b.req;
    && InputAcceptable(r.input) && r.input.profile == a.h.mb.profile && r.input.lengths == a.h.mb.lengths
    && r.input.previousSeq == a.h.mb.requestSeq
    && a.h.mb.magic == COMMAND_MAGIC && a.h.mb.abiVersion == ABI_VERSION
    && FrameSent(a.h, b.h, WireColor(r.input.profile, r.input.rgb))
    && BanksDone(r, 4) && Budgeted(r) && r.cleanupFailed == {}
    && b.grants == a.grants + Enabled(a.h.mb.lengths)
    && r.requestSeq == b.h.mb.requestSeq
    && (LastBank(a.h.mb.lengths) != 0 || (Settled(a.h) && a.h.mb.status == READY) ==> ShowsDone(r))
    && (r.completionSeq == r.requestSeq && r.status == DONE ==>
          Idle(b.h) && SnapshotExact(r, b.h.mb) && CheckMailbox(b.h.mb) == OK)
  }

  predicate Prepared(a: Hw, b: Hw, r: SendInput) {
    && Rely(a, b) && Outside(b) && Idle(b) && Settled(b) && KernelCheck(r, b.mb) == 0
  }

  /** Idle across the preparation of the send: only DMA state has moved. */
  lemma PreparedRely(a: Hw, b: Hw, c: Hw, r: SendInput)
    requires Prepared(a, b, r) && Rely(b, c)
    ensures Prepared(a, c, r)
  {
    RelyTransitive(a, b, c);
    OutsideRely(b, c);
    IdleRely(b, c);
    hide Inv, Streaming, Honest;
  }

  lemma CompleteFromFrame(a: View, m: Hw, b: View)
    requires Inv(a.h) && Prepared(a.h, m, b.req.input) && !Streaming(a.h)
    requires FrameSent(m, b.h, WireColor(b.req.input.profile, b.req.input.rgb)) && Honest(b.h) && Inv(b.h) && Announced(b.req, b.h)
    requires BanksDone(b.req, 4) && Budgeted(b.req) && b.req.cleanupFailed == {}
    requires LastBank(m.mb.lengths) != 0 || m.mb.status == READY ==> ShowsDone(b.req)
    requires b.grants == a.grants + Enabled(m.mb.lengths) && b.req.requestSeq == b.h.mb.requestSeq
    ensures SendComplete(a, b)
  {
    if b.req.completionSeq == b.req.requestSeq && b.req.status == DONE {
      DoneIsReady(b.h);
    }
    assert SameOwned(a.h, m) && m.sent == a.h.sent;
    if Settled(a.h) && a.h.mb.status == READY { ReadyStays(a.h, m); }
    hide Inv, Streaming, Honest, Rely, Kept, AfterBanks;
  }

  function Count(held: bool): int {
    if held then 1 else 0
  }

  lemma DmaMayBegin(v: View)
    ensures MayAttempt(OtherDma, v) <==> Outside(v.h)
  {
  }

  lemma WaitedRely(a: View, b: View, error: int, granted: bool, stopped: bool)
    requires AttemptOutcome(OtherDma, a, b, error, granted, stopped)
    ensures Rely(a.h, b.h) && Outside(b.h) && b == a.(h := b.h)
  {
  }

  lemma FramePublished(a: Hw, b: Hw, color: u32, seqNo: u32)
    requires InFrame(a, b, color, seqNo)
    ensures b.cpu == a.cpu
  {
  }
}
