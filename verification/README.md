# Verified model of the bank-gated LED driver

The repository drives six LED strings from the PRU of an AM335x. A resident sender hands each colour to a kernel
helper; the helper publishes it in a 72-byte mailbox and, bank by bank, opens a short window in which nothing else
can disturb the memory interconnect; only inside that window does it grant the PRU firmware one bank. This project
models that protocol together with the code around it, and proves what it is for: no pixel edge outside its window,
whole frames or a reported and cleaned-up failure, and a mailbox that is ready for the next frame.

## How it is organised

| file | models |
|---|---|
| `Abi.dfy`, `CommandBlock.dfy` | the mailbox ABI, bank geometry, the two readiness checks |
| `GrantRoutine.dfy` | the exact ARM words of the grant and timing routine, and what they compute |
| `Firmware.dfy` | the shared hardware and the PRU firmware, one step for each of its accesses |
| `Invariant.dfy`, `Interference.dfy`, `Progress.dfy` | the invariant of that machine, what survives any number of its steps, and that it gets on |
| `Transaction.dfy`, `Kernel.dfy` | the kernel helper's send transaction, statement by statement |
| `Userspace.dfy`, `Sender.dfy` | hardware set-up and cleanup, `dld-init`, the resident sender, whole sessions |
| `PruEmulator.dfy`, `Guards.dfy` | the instruction emulator of the timing audit, and what its write checks guarantee of every run |
| `Transmitter.dfy`, `Settling.dfy` | on it, the firmware's pixel mask, timed section and settling wait |
| `ConfigParser.dfy`, `Budget.dfy` | the configuration reader and the budget arithmetic |
| `Opc.dfy`, `Flash.dfy`, `Receiver.dfy` | the UDP receiver |
| `Capture.dfy` | the stream logic of the capture checker |
| `Wrappers.dfy`, `Arithmetic.dfy` | small shared types and facts about division |

**Interleaving.** `Firmware.Step` is one atomic step of anyone but the kernel helper's thread: one firmware access,
or a change of clock, DMA and CPSW registers. Before every single access to a mailbox word or register, and before the
CPU is masked, every method of `Kernel.Helper`, `Userspace.Device` and `Senders.Sender` calls `Others`, which runs any
finite sequence of such steps (`Interference.RunRely`). The contracts of those methods therefore hold for every
interleaving. Whole sessions (`Senders.Session`) put any number of initialisations, senders, sends and deaths in any
order; time between them is unbounded.

**Death.** A userspace process may be killed before each of its writes: inside `dld-init`, inside the cleanup, and
around the ioctl of a send, which itself runs to its end. The methods then return `KILLED`, and their contracts say
what is left behind.

**Where functions meet methods.** Code that changes state is a method of a class; where a pure specification exists
(the timing loop, the reader's scanning functions, the emulator's step, the flash, the counters, the edge list) the
method's contract equates its effect with that function, and the lemmas are about the function.

## Assumptions

- Writing 1 to a PRU's CONTROL register stops its further steps. PRU0's run state reads clear only once it has been
  disabled or has executed HALT, and may read set even then; PRU1's reads either way.
- While the only CPU has IRQ, FIQ and preemption off, clocks and the CPSW control word do not change by themselves, a
  paused and drained CPSW stays drained, and a DMA engine can become busy only if one before it in the order of the
  check (MMC, EDMA channel controller, its transfer controllers) is still busy (`Firmware.DmaMayBecome`). Unmasked,
  all of them change arbitrarily.
- Within one granted timing loop, where the CPU does nothing else, the cycle counter advances by less than
  2^30 - 10^7 + 2 between two consecutive reads (`Kernel.Helper.PacedRuns`). Nothing is assumed of its reads in the
  warm-up, of other runs, or of the time between banks, frames and sessions. `GrantRoutine.FlagExact` gives the exact
  bound below which the result word can be trusted.
- Words of the mailbox are read and written atomically. The firmware loads a bank's lengths in one step; they never
  change while it runs.
- The command lock is the only exclusion between userspace processes; `dld-init` and senders take it.

## Findings

- **A stale DONE.** `wait_gate` reads the status before the sequence words. A match of the final wait means a status of
  DONE, on every schedule, if and only if some length is nonzero or the request was published over READY
  (`Progress.FinalWaitExact`). Every frame of six zero lengths published over DONE (`Progress.Republished` is one),
  whatever its colour and sequence, has a schedule on which the kernel returns zero while the status is still RUNNING (`Progress.StaleDone`); the
  sender's own completion check then reports a critical failure. The sufficient half is part of what a successful
  send promises (`Kernel.Helper.PerformSend`, through `SendComplete`). The settling wait of the firmware makes the
  schedule unlikely; nothing in the code excludes it.
- **Reset without disable.** `failed_frame_cleanup` polls and resets cores even when its first window found the PRUSS
  unclocked and wrote no disable. For every clock word and all run states read, no core is reset undisabled if and only
  if that word said functional or no core is reset at all (`Transaction.DisablesExact`, on the log that
  `Kernel.Helper.FailedFrameCleanup` is proved to leave). `Transaction.ResetWithoutDisable` is the input: a PRU0 halted
  by a failed bank clear behind a clock that wakes up between the two phases.
- **Two validators, two codes.** The sender and the kernel accept the same mailboxes (`CommandBlock.ValidatorsAgree`),
  but report two families of rejected ones differently; `CommandBlock.ValidatorCodesAgree` is the exact condition and
  `CommandBlock.ValidatorCodesDiffer` an instance.
- **A flag that can alias.** Elapsed counts of 2^30 and above read as "grant withheld". For a request of c cycles the
  flag can be trusted on every counter paced by less than b between reads of the granted loop if and only if
  b + c <= 2^30 + 1 (`GrantRoutine.FlagExact`); `GrantRoutine.JumpAliasesWithheld` is an instance at the largest budget.

## Model

| member | source | states |
|---|---|---|
| CommandBlock.ValidatorsAgree | src/dld_common.c:325-360 | On every mailbox content the sender's check returns OK iff the kernel's `validate` accepts the request built from it, and every state it calls BUSY the kernel calls -EBUSY |
| CommandBlock.ValidatorCodesAgree | kernel/dld_quiet_main.c:151-185 | For every rejected mailbox the two give the same exit code iff profile and lengths are in the catalogue and no request is outstanding under a status the sender does not know |
| CommandBlock.ValidatorCodesDiffer | kernel/dld_quiet_main.c:170-176 | The two codes can differ: an outstanding request under INITIALIZING |
| GrantRoutine.BranchDecodes | kernel/audit_quiet.py:50-53 | Every branch word the audit computes decodes to a branch to the intended target under the intended condition |
| GrantRoutine.LoopComputesTimer | kernel/dld_quiet_spin.S:60-70 | From the head of the timing loop the machine words reach its exit, for every counter, with the elapsed word, flags and number of reads of `Timer` |
| GrantRoutine.WordsComputeRoutine | kernel/audit_quiet.py:80-95 | From entry the audited words return for every counter, with callee-saved registers and stack restored; a grant is exactly one store at offset 60 followed by exactly one load at offset 64, no grant is no access at all |
| GrantRoutine.ResultFlags | kernel/dld_quiet_main.c:373-386 | For every counter: a result without TIMER_FAULT means the store happened and elapsed is at least the requested cycles; a withheld grant carries both flags and no observation; the counter reads are bounded |
| GrantRoutine.PacedFlag | kernel/dld_quiet_main.c:376-378 | If the reads of the granted loop alone are paced, the withheld bit is clear iff the store happened |
| GrantRoutine.FlagExact | kernel/dld_quiet_main.c:376-378 | The exact pace: every counter paced below b gives a true flag iff b plus the requested cycles is at most 2^30 + 1 |
| GrantRoutine.FrozenCounterWithholds | kernel/dld_quiet_spin.S:31-34 | A counter that stands still never gets a grant |
| GrantRoutine.JumpAliasesWithheld | kernel/dld_quiet_main.c:376-378 | At the largest budget a jumping counter shows a stored grant as withheld with no timer fault |
| Invariant.PruStepKeepsInv | pru/README.md:35-53 | Every firmware step keeps the invariant: each pixel edge falls into an open window of the bank granted, symbols sent are exactly those of the colour and lengths, and the gate and colour errors are unreachable against this kernel |
| Invariant.PixelSends | pru/ws2812_uniform.p:110-119 | At a pixel boundary exactly the finished pins drop out, each holding exactly its length in pixels |
| Invariant.GateKeepsInv | pru/ws2812_uniform.p:323-343 | From readiness through the release of the gate: the gate opens only for this bank's grant, and earlier ordinals wait |
| Interference.StepRely | pru/README.md:40-59 | What one step of firmware or DMA cannot do: touch words the kernel owns, move from a closed gate, undo a completion, announce one early, or disturb a frozen window |
| Interference.RunRely | pru/README.md:35-59 | The same for every finite sequence of such steps |
| Transaction.GrantKeepsInv | kernel/dld_quiet_main.c:369-373 | Granting a bank is safe exactly as the helper does it: window open, firmware waiting at that gate |
| Transaction.DoneMeansOver | pru/README.md:47-53 | Reading a bank's ordinal in bank_done under its own grant means its stream and drain are over |
| Transaction.SettledMeansIdle | src/dld_common.c:339-346 | Matching sequences under READY or DONE mean an idle firmware |
| Transaction.AdmissionBounded | kernel/dld_admission.h:24-42 | For every clock and every behaviour of the attempts: at most 10000 attempts, an attempt that granted is the last and no pause follows it, and an idle-only success was read off the clock before the deadline and after the attempt |
| Transaction.EmptyMaskMeansSafe | kernel/dld_quiet_main.c:436-501 | An empty failure mask after cleanup means both cores stopped, the mailbox invalid and every LED latch low |
| Transaction.DoneIsReady | kernel/dld_quiet_main.c:176-184 | A completed frame announced DONE leaves a mailbox the next send's checks accept |
| Transaction.GrantedIsTruthful | kernel/dld_quiet_main.c:281-287 | Once a bank of the frame has been granted, a DONE status is no longer the previous frame's |
| Transaction.PolledIsStopLog | kernel/dld_quiet_main.c:456-480 | For all run states read: a core is reset only directly after its run state read clear, and once |
| Transaction.DisablesExact | kernel/dld_quiet_main.c:444-480 | For every first clock word and all readings: every reset core was disabled before iff that word said functional or none was reset |
| Transaction.ResetWithoutDisable | kernel/dld_quiet_main.c:444-480 | The failing input: a halted, never disabled PRU0 behind a clock that wakes up after the first window |
| Transaction.Judge | kernel/dld_quiet_main.c:485-498 | Each further GPIO block ends in exactly one of the low and failed masks, and earlier ones stay low |
| Kernel.Helper.Snapshot | kernel/dld_quiet_main.c:139-149 | Eight separate readings; if they show a matching completion under READY or DONE they are the mailbox of one instant |
| Kernel.Helper.Validate | kernel/dld_quiet_main.c:151-185 | Read word by word against a moving firmware, success means an idle firmware and a mailbox `KernelCheck` accepts; against a waiting one the code is exactly `KernelCheck` |
| Kernel.Helper.OtherDmaIdle | kernel/dld_quiet_main.c:195-226 | Two passes, clock before status: success means all six engines are idle at once |
| Kernel.Helper.ObserveGate | kernel/dld_quiet_main.c:271-297 | One masked observation: a match means the firmware waits at that gate, or for the final wait that the request is complete and, if no DONE was stale before, the firmware is back in its request loop under DONE |
| Kernel.Helper.WaitGate | kernel/dld_quiet_main.c:265-301 | At most 200 observations with the CPU unmasked in between; same meaning of success, and the rest of the state as `Rely` |
| Kernel.Helper.TimerLoop | kernel/dld_quiet_spin.S:60-70 | The loop with the firmware running beside it computes `Timer` on the run's counter |
| Kernel.Helper.GrantAndTime | kernel/dld_quiet_spin.S:49-88 | One grant inside an open window, timing, one observation: reading the ordinal means the stream is over |
| Kernel.Helper.BankEntry | kernel/dld_quiet_spin.S:36-90 | The routine against a running firmware computes `Routine` on this run's own counter, grants exactly when it says so, and otherwise leaves the mailbox alone |
| Kernel.Helper.DrainCpsw | kernel/dld_quiet_main.c:351-368 | -EIO iff the last status word read shows an error, success iff it shows idle without one and CPSW is then paused; no earlier reading shows either, and at most 100000 are made |
| Kernel.Helper.OpenWindow | kernel/dld_quiet_main.c:313-371 | Success means the window is open; a changed CPSW is always reported with its saved word; nothing but DMA registers changed |
| Kernel.Helper.GrantBank | kernel/dld_quiet_main.c:372-386 | The granted mask gets the bank iff the grant was stored; success means bank_done was seen and at least the budget has passed |
| Kernel.Helper.CloseWindow | kernel/dld_quiet_main.c:387-404 | A granted failure stops the PRU and clears the magic word before the CPSW write; a failed restore is recorded and returns -EIO |
| Kernel.Helper.TryBank | kernel/dld_quiet_main.c:303-411 | On every exit CPU state as on entry; nothing granted and hardware as before, or granted and over, or granted, failed and stopped; CPSW has the control word it had when the CPU was masked, or the failure is reported; -EAGAIN never after a grant |
| Kernel.Helper.AdmissionWait | kernel/dld_admission.h:24-42 | The loop leaves a record the rules allow and the state of a single attempt, so a retry starts from the same state |
| Kernel.Helper.Withdraw | kernel/dld_quiet_main.c:442-455 | The PRUSS clock word when the CPU was masked decides: functional, the mailbox is invalidated and both cores disabled; else bit 0 is set and nothing written |
| Kernel.Helper.StopCores | kernel/dld_quiet_main.c:456-480 | Within 200 rounds the register log and the stopped cores are the function `Polled` of the run states read, also for a core that halted by itself; bit 0 set iff one is left |
| Kernel.Helper.ClearBanks | kernel/dld_quiet_main.c:481-500 | Every GPIO block ends in exactly one of the low and failed masks, and a low one reads low |
| Kernel.Helper.FailedFrameCleanup | kernel/dld_quiet_main.c:436-501 | The register log is `CleanupLog` of the first window's clock word and the run states read; every block judged; bit 0 clear iff the disables were written and both cores seen stopped |
| Kernel.Helper.Publish | kernel/dld_quiet_main.c:558-576 | Grant cleared and colour stored before the sequence, against an idle firmware; failure leaves everything as it was |
| Kernel.Helper.ComputeBudgets | kernel/dld_quiet_main.c:550-557 | The range check never fires on validated lengths |
| Kernel.Helper.SendBanks | kernel/dld_quiet_main.c:580-588 | The nonempty banks are granted once each, in order, up to the first failure; success means all of them are complete with their cycles spent |
| Kernel.Helper.FinalWait | kernel/dld_quiet_main.c:589-591 | Success means every pin has its pixels and the sequence matches; once a bank was granted, or if no DONE was stale, also that the firmware is idle under DONE |
| Kernel.Helper.Finish | kernel/dld_quiet_main.c:577-603 | After publication: success means the frame is out, any error was cleaned up |
| Kernel.Helper.PerformSend | kernel/dld_quiet_main.c:503-621 | On every path each reference is given back once and the CPU is as on entry; an error before publication wrote no mailbox word; success is a complete frame, shown as DONE unless all lengths are zero and it followed another, with the mailbox ready again; a published failure was cleaned up |
| Progress.GrantedBankCompletes | pru/ws2812_uniform.p:310-383 | A granted bank of L pixels publishes bank_done after exactly 48 L + 6 firmware steps if no latch is stuck |
| Progress.StaleDone | kernel/dld_quiet_main.c:281-287 | Every frame of zero lengths published over DONE, of any colour and sequence, reaches in eleven firmware steps a state whose sequence words match under RUNNING |
| Progress.FinalWaitExact | kernel/dld_quiet_main.c:265-301 | For every published request and every schedule of the wait: a match means DONE iff some length is nonzero or it was published over READY |
| Userspace.Device.StopPrus | src/dld_hw.c:68-110 | All disables before any polling, resets only after a clear run state, at most 101 rounds; zero iff every core was stopped; killed anywhere, the log ends in that order |
| Userspace.Device.ConfigureBank | src/dld_hw.c:251-288 | The directions change only after the latches read low; success means outputs that read low; blocks already low stay low |
| Userspace.Device.Cleanup | src/dld_hw.c:324-343 | Both cores disabled, mailbox invalid, every block attempted in order whatever the others did, and every block configured with success reads low at the end; killed anywhere, its report says how far this holds |
| Userspace.Device.WriteMailbox | src/dld_init.c:103-116 | Eighteen stores in order onto a stopped PRU; killed after n of them the mailbox holds exactly the first n, the status last |
| Userspace.Device.WaitReady | src/dld_init.c:18-70 | Success means an idle firmware and exactly the initial mailbox under READY |
| Userspace.Device.Init | src/dld_init.c:72-150 | From any state: success establishes the protocol's initial state for the configuration; a failure after taking control leaves the PRU stopped and the mailbox invalid; death anywhere leaves the board untouched, PRU0 stopped, or the firmware running on exactly this configuration |
| Senders.Sender.Unlock | src/dld_sender.c:13-24 | The lock is released even when unlocking fails |
| Senders.Sender.Open | src/dld_sender.c:35-73 | Success leaves everything open and unlocked, failure everything closed |
| Senders.Sender.Send | src/dld_sender.c:75-191 | Lock never held between calls; a fault is sticky and blocks the ioctl; the request carries the mailbox's profile, lengths and sequence; OK is a delivered frame; cleanup exactly once per critical failure and never otherwise, which then left the hardware alone; a sender killed at any point holds nothing and its frame is unsent, whole, cleaned up by the kernel, or in a cleanup cut short as reported |
| Senders.DeliveredMeansReady | src/dld_sender.c:75-191 | After a delivered frame the kernel accepts the next request whatever its colour, also across sequence wrap |
| Senders.DeliveredPixels | pru/ws2812_uniform.p:344-376 | Every pin of length L got exactly L copies of the 24 symbols of the wire colour |
| Senders.Session | pru/README.md:40-53 | Through any history of initialisations, sends and deaths, with any pauses, every event does to the board what its contract explains, and every pixel edge ever made lies in an open window of its bank |
| Senders.WholeMeansReady | tests/test_signals.py:99-111 | A sender that died after publication and whose frame came out whole leaves a session that accepts any next send without initialisation |
| Senders.SessionPixels | tests/README.md:385-390 | Without an initialisation or failed send in it, every pin has received exactly the whole frames of the history, in order and nothing else, however many senders died |
| Firmware.CopiesRepeat | pru/ws2812_uniform.p:344-370 | Symbol i of the copies of a colour is bit 23 - i mod 24 |
| PruEmulator.PutLaws | tests/pru_audit.py:131-137 | Fields read back what was put modulo their width, later puts hide earlier ones, disjoint fields and other registers stay |
| PruEmulator.WithArithmetic | tests/pru_audit.py:135-137 | The byte-wise field write is the mask-and-shift expression of the source |
| PruEmulator.DecodeEncode | tests/pru_audit.py:32-59 | Every instruction that fits into a word is decoded from that word, whatever its place: opcode numbers, operand forms, signed branch distance and burst fields |
| PruEmulator.DelayExact | tests/pru_audit.py:196-207 | For an 8-, 16- or 32-bit counter c > 0 the shortcut equals 2c plain steps in every register, byte, latch, record, pc and cycle |
| PruEmulator.FastIsPlain | tests/pru_audit.py:190-270 | Every accelerated run is a plain run of as many cycles |
| PruEmulator.PlainIsFast | tests/pru_audit.py:190-270 | Every plain run is at a state of the accelerated run, inside a delay loop it is about to take, or past a zero count at which it was refused |
| PruEmulator.Emulator.Step | tests/pru_audit.py:190-270 | The object's step is that accelerated step |
| Guards.RunGuarded | tests/pru_audit.py:159-188 | For every program and every run not refused: configuration, request and grant words, directions and all GPIO bits but the LED pins are as before; every pin write names LED pins of its block and raises only under its grant; every bank announced had its pins low and read back at that moment |
| Guards.FastRunGuarded | tests/pru_audit.py:272-281 | The same for the accelerated runs the audit makes |
| PruEmulator.Emulator.StepMany | tests/pru_audit.py:272-281 | The state after any number of steps is that of the plain machine after as many cycles |
| Transmitter.SymbolRuns | pru/ws2812_uniform.p:75-106 | One symbol on the emulator: its two pin writes at their exact cycles, whatever the parities |
| Transmitter.LoadedCycles | pru/ws2812_uniform.p:170-178 | The loaded delay counts and parity flags give exactly the profile's high and low times |
| Transmitter.BoundaryRuns | pru/ws2812_uniform.p:370-376 | The pixel boundary takes twelve cycles, eleven at the end of the stream |
| Transmitter.NextMaskActive | pru/ws2812_uniform.p:110-119 | The boundary keeps exactly the pins with pixels left |
| Transmitter.InitialMaskActive | pru/ws2812_uniform.p:310-322 | The mask built before the gate holds exactly the pins with a nonzero length |
| Transmitter.GroupRuns | pru/ws2812_uniform.p:310-322 | The instructions that build it, run on the emulator: exactly that mask in r9 within nine cycles, nothing else changed, return to the caller iff the bank is empty |
| Transmitter.StreamRuns | tests/pru_audit.py:344-371 | For every colour, lengths and feasible profile each pin gets exactly the waveform of its length, and the stream takes exactly 24 periods a pixel less one cycle |
| Transmitter.WaveformTimes | tests/pru_audit.py:359-368 | In such a waveform each high lasts as its bit says and each rise comes one period after the one before |
| Transmitter.WaveformIsCopies | pru/ws2812_uniform.p:344-369 | Its symbols are the copies the step machine records as sent |
| Transmitter.StreamFitsBudget | kernel/dld_quiet_main.c:552-555 | A stream is over more than the guard time before the helper's budget for its bank |
| Transmitter.TimedCodeExists | pru/ws2812_uniform.p:344-376 | The macro expansion meets the description of the code the theorems assume |
| Transmitter.TimedImageExists | tests/pru_audit.py:32-59 | Each of its instructions fits into a word and is decoded from it |
| Settling.SettleComputed | pru/ws2812_uniform.p:189-202 | The start-up loop leaves half the settling time of the longest string, rounded up |
| Settling.WaitSettles | tests/pru_audit.py:334-341 | The wait lasts longer than the settling allowance for the lengths, and writes no pin |
| ConfigParser.ParsePrinted | src/dld_common.c:182-230 | Every printing of every valid configuration (either order, any white space, any escape spelling, -0) is accepted with its meaning |
| ConfigParser.ParseRead | src/dld_common.c:182-230 | Everything accepted is such a printing with that meaning |
| ConfigParser.ParseExactly | src/dld_common.c:182-230 | Acceptance with a configuration iff the text is one of its printings |
| ConfigParser.MeaningValid | src/dld_common.c:182-230 | An accepted configuration has a catalogue profile and lengths in range |
| ConfigParser.ParseConfig | src/dld_common.c:182-230 | The reader returns zero iff the text is accepted, stores exactly its meaning, and leaves the caller's configuration untouched on failure |
| ConfigParser.Reader.JsonName | src/dld_common.c:110-152 | The 32-byte name buffer is never overrun and ends up holding the decoded, terminated name |
| ConfigParser.Reader.JsonLength | src/dld_common.c:154-180 | Reads exactly the schema's integers, never past the text |
| ConfigParser.Reader.JsonMembers | src/dld_common.c:196-225 | The member loop accepts what `Members` accepts and stops where it stops |
| Budgets.ComputeBudget | src/dld_common.c:287-323 | With every 64-bit operation wrapped: an error iff the input is invalid, else the exact unwrapped budget; overflow and range branches are dead |
| Budgets.Covers | src/dld_common.c:306-320 | The iterations are the least number that covers data, settling and guard time at the given frequency |
| Budgets.Monotone | src/dld_common.c:287-323 | A longer string never gets a smaller budget |
| Budgets.KernelBudgets | kernel/dld_quiet_main.c:44-50 | Each kernel budget covers its bank's data with 600 us to spare and stays below the range check |
| Opc.DecodeEncode | src/dld_opc.c:3-16 | Any message with a whole pixel is recognised whatever follows it |
| Opc.DecodedIsEncoded | src/dld_opc.c:3-16 | What is not malformed starts with such a message |
| Flashes.Flash.Next | src/dld_flash.c:24-46 | The frame, the final flag and the new state are those of the brightness curve, whatever the clock does |
| Flashes.FlashShape | src/dld_flash.c:24-46 | On a clock that never runs backwards a completed flash is black, brightens to exactly the colour, dims and is black, whatever the sends cost |
| Flashes.ScaleMonotone | src/dld_flash.c:3-14 | More weight never dims any channel |
| Receivers.EachCountedOnce | src/dld_udp.c:167-181 | Every datagram of a batch is counted in exactly one class, and the colour kept is that of the last valid one |
| Receivers.IdleWaitExact | src/dld_udp.c:65-75 | The wait is zero iff an idle flash is enabled and due, else the least number of milliseconds after which it is due, cut at 250 |
| Receivers.Receiver.ReceiveBatch | src/dld_udp.c:140-183 | At most 64 datagrams; counters advance by the classes of the batch; the colour is the last valid one |
| Receivers.Receiver.EndFlash | src/dld_udp.c:273-283 | A completed flash went out as one contiguous, smooth block of sends |
| Receivers.Receiver.Turn | src/dld_udp.c:230-304 | Counters balance after every turn and are off by at most one on exit; nothing is sent but the latest valid colour or the next frame of the flash; idle flashes keep their distance |
| Receivers.Receiver.Animate | src/dld_udp.c:248-284 | An idle flash begins exactly when one is due, and a flash in progress always advances |
| Receivers.Receiver.Serve | src/dld_udp.c:230-304 | The same over any number of turns |
| Capture.FindEdges | tools/analyze_capture.py:196-216 | For every chunk size the reset edges are the same: each gap is visited once |
| Capture.PulsesAlternate | tools/analyze_capture.py:76-81 | Rises and falls of a valid channel alternate whatever its initial level |
| Capture.EdgesExact | tools/analyze_capture.py:208-216 | Exactly the reset gaps are found, in order |
| Capture.SegmentsPartition | tools/analyze_capture.py:258-281 | The segments partition all rises, contain no reset gap, only the first and last can be partial, and their bits add up to the rises |
| Capture.Split | tools/analyze_capture.py:253-281 | Complete and partial segments are kept apart in order, and complete plus partial bits are all rises |
| Capture.PhasesNext | tools/analyze_capture.py:324-334 | One more colour moves the explaining phases on by one and keeps those that fit |
| Capture.Tracker.Observe | tools/analyze_capture.py:324-334 | The position set is exactly the set of phases that explain the run; a violation is reported iff there is none |

## Left out

- Mapping, UIO discovery, `/dev/mem`, `ioremap`, module load and perf events: foreign calls; registers are fields with a stated environment.
- Physical edges, interconnect latency and electrical settling: measured by the repository, not derived; the firmware's settling waits have no duration in the step machine.
- The kernel's own locking, power management and network semantics beyond acquire and release counts.
- Diagnostics that decide nothing: `cpu_khz`, `irq_off_cycles`, `dma_drain_cycles`, `dma_status`, `blocked_engine`, `blocked_status`, log lines and error strings.
- Run states and GPIO of PRU1, notification routes and INTC writes: no step of the protocol depends on them.
- Firmware.Step: CPU-side DMA faults, aborts on gated registers and PRU reads that never return are not steps.
- Kernel.Helper.OpenWindow: CPU frequency and PMU readiness are arbitrary booleans, and the counter samples that bound the drain are arbitrary.
- Kernel.Helper.PerformSend: the u32 masks of the request are sets of bit numbers.
- Userspace.Device.WaitReady: the unbounded polling loop runs for an arbitrary finite number of rounds before its deadline expires.
- GrantRoutine.WordsComputeRoutine: starts at the ARM body; the Thumb veneer before it (`bx pc`, `nop`, `b`) and the parsing of the object dump are not modelled.
- PruEmulator.Emulator.Step: starts from decoded instructions; the checks of the image against its listing are not modelled.
- Transmitter.StreamRuns: start-up, the handshake at the gate and the drain after the stream run on the step machine of `Firmware.dfy` only.
- ConfigParser.ParseConfig: error messages and their byte positions, and reading the file into memory.
- Receivers.Receiver.Turn: counters do not wrap at 2^64; sockets, `poll`, signals and the command line are arbitrary choices.
- Capture.Split: histograms, timing tolerances, colour matching inside a segment and the comparison of banks; timestamps are reals instead of doubles.
- `dld_parse_color`, `dld_group_count`, `valid_port`, colour-order tables: easy members.
- Deployment, packaging, bench supervision, scene generation and the retired userspace spin.
