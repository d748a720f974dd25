/** What the kernel helper may rely on while the firmware and the DMA engines take steps between two of
    its own accesses, and which of its own writes keep the invariant. */
module Interference {
  import opened Abi
  import opened CommandBlock
  import opened Firmware
  import opened Invariant

  /** The firmware, if it runs, waits for a word only the kernel writes: a request or a grant. */
  predicate Parked(h: Hw) {
    h.pru.running ==>
      || (h.pru.loc.Poll? && h.mb.requestSeq == h.pru.seqNo)
      || (h.pru.loc.Group? && h.pru.loc.at.Gate? && h.mb.bankGrant < h.pru.loc.bank)
      || (h.pru.loc.Fail? && h.pru.loc.fail.Halted?)
  }

  /** Every request published so far has been completed. */
  predicate Settled(h: Hw) {
    h.mb.completionSeq == h.mb.requestSeq
  }

  /** A completion is never early: once it matches the request, every pin has its pixels. */
  predicate Honest(h: Hw) {
    Settled(h) ==>
      && h.pru.running && (h.pru.loc.Poll? || (h.pru.loc.Close? && !h.pru.loc.close.Complete?))
      && h.sent == AfterBanks(h.base, h.mb.lengths, h.mb.wireColor, 3)
      && h.mb.bankGrant == LastBank(h.mb.lengths) && h.mb.bankDone == LastBank(h.mb.lengths)
      && h.mb.acceptedSeq == h.mb.requestSeq
  }

  /** A status of DONE is the last request's: not, or no longer, the one before it. */
  predicate Truthful(h: Hw) {
    h.pru.running && h.mb.status == DONE ==> Settled(h)
  }

  /** The words only the kernel or dld-init writes, the CPU state and the history of publications. */
  predicate SameOwned(a: Hw, b: Hw) {
    && b.mb.magic == a.mb.magic && b.mb.abiVersion == a.mb.abiVersion && b.mb.profile == a.mb.profile
    && b.mb.lengths == a.mb.lengths && b.mb.wireColor == a.mb.wireColor && b.mb.requestSeq == a.mb.requestSeq
    && b.mb.bankGrant == a.mb.bankGrant
    && b.cpu == a.cpu && b.base == a.base && b.pru.running == a.pru.running
  }

  predicate Frozen(a: Dma, b: Dma) {
    && b.prussClock == a.prussClock && b.cpswClock == a.cpswClock && b.gpioClocks == a.gpioClocks
    && b.engineClocks == a.engineClocks && b.cpswControl == a.cpswControl
    && (forall n :: 0 <= n <= 6 && IdleUpTo(a, n) ==> IdleUpTo(b, n))
    && (CpswPaused(a) ==> CpswPaused(b))
  }

  /** What survives from a to b apart from the DMA and clock registers. */
  predicate Kept(a: Hw, b: Hw) {
    && Inv(b)
    && SameOwned(a, b)
    && (!Streaming(a) ==> !Streaming(b) && b.edges == a.edges && b.sent == a.sent)
    && (Parked(a) ==> b == a.(dma := b.dma))
    && (Settled(a) ==> Settled(b))
    && (Honest(a) ==> Honest(b))
    && (Truthful(a) ==> Truthful(b))
  }

  /** Everything that survives any number of steps of the others from a to b. */
  predicate Rely(a: Hw, b: Hw) {
    Kept(a, b) && (Masked(a.cpu) ==> Frozen(a.dma, b.dma))
  }

  lemma RelyReflexive(h: Hw)
    requires Inv(h)
    ensures Rely(h, h)
  {
  }

  lemma KeptTransitive(a: Hw, b: Hw, c: Hw)
    requires Kept(a, b) && Kept(b, c)
    ensures Kept(a, c)
  {
    hide Inv, Streaming, Honest, Settled;
    if Parked(a) {
      assert b == a.(dma := b.dma);
      assert Parked(b);
      assert c == b.(dma := c.dma);
    }
  }

  lemma RelyTransitive(a: Hw, b: Hw, c: Hw)
    requires Rely(a, b) && Rely(b, c)
    ensures Rely(a, c)
  {
    KeptTransitive(a, b, c);
    assert b.cpu == a.cpu;
    hide Kept, CpswPaused, IdleUpTo;
  }

  // ---------------------------------------------------------------- steps of the others

  lemma StreamingIsQuiet(h: Hw)
    requires Inv(h) && Streaming(h)
    ensures Quiet(h)
  {
    hide Quiet, SafeEdges, WithinBank, AfterBanks, ActiveAt, Ends;
    assert LastBefore(h.mb.lengths, h.pru.loc.bank) < h.pru.loc.bank;
  }

  /** DMA, clocks and CPU masks may change in any way while no stream is on. */
  lemma CalmChange(h: Hw, d: Dma, c: Cpu)
    requires Inv(h) && !Streaming(h) && Wired(d)
    ensures Inv(h.(dma := d, cpu := c)) && !Streaming(h.(dma := d, cpu := c))
  {
    hide Quiet, EnginesIdle, WithinBank, AfterBanks, LastBefore, ActiveAt, Ends, BankLength, IdleUpTo;
  }

  /** During a stream they may change as long as the window stays open. */
  lemma QuietChange(h: Hw, d: Dma)
    requires Inv(h) && Streaming(h) && Wired(d) && Quiet(h.(dma := d))
    ensures Inv(h.(dma := d))
  {
    hide EnginesIdle, WithinBank, AfterBanks, LastBefore, ActiveAt, Ends, BankLength, IdleUpTo, CpswPaused;
  }

  lemma DriftRely(h: Hw, d: Dma)
    requires Inv(h)
    ensures Rely(h, Step(h, Drift(d)))
  {
    if DmaMayBecome(h, d) {
      var g := h.(dma := d);
      assert Inv(g) by {
        hide Inv;
        if Streaming(h) {
          StreamingIsQuiet(h);
          assert IdleUpTo(h.dma, 6) && IdleUpTo(d, 6);
          QuietChange(h, d);
        } else {
          CalmChange(h, d, h.cpu);
        }
      }
      hide Inv;
    }
  }

  lemma TickOwned(h: Hw, stuck: Pins, inputs: Pins)
    ensures SameOwned(h, PruStep(h, stuck, inputs)) && PruStep(h, stuck, inputs).dma == h.dma
  {
    hide Quiet, Ends, ActiveAt, Append, FinishPins, BitOf, And, Or, AndNot, BankPins, AfterGroup;
    match h.pru.loc
    case Group(k, at) => GroupOwned(h, k, at, stuck);
    case Boot(b) => hide GroupStep;
    case _ => hide GroupStep, BootStep;
  }

  lemma GroupOwned(h: Hw, k: Bank, at: GroupLoc, stuck: Pins)
    ensures SameOwned(h, GroupStep(h, k, at, stuck)) && GroupStep(h, k, at, stuck).dma == h.dma
  {
    hide Quiet, Ends, ActiveAt, Append, FinishPins, BitOf, And, Or, AndNot, BankPins, AfterGroup;
  }

  lemma TickCalm(h: Hw, stuck: Pins, inputs: Pins)
    requires Inv(h) && h.pru.running && !Streaming(h)
    ensures !Streaming(PruStep(h, stuck, inputs))
    ensures PruStep(h, stuck, inputs).edges == h.edges && PruStep(h, stuck, inputs).sent == h.sent
  {
    hide Quiet, WithinBank, AfterBanks, ActiveAt, Ends, BankLength, SafeEdges;
  }

  lemma TickParked(h: Hw, stuck: Pins, inputs: Pins)
    requires h.pru.running && Parked(h)
    ensures PruStep(h, stuck, inputs) == h
  {
  }

  lemma TickSettled(h: Hw, stuck: Pins, inputs: Pins)
    requires Inv(h) && h.pru.running && Settled(h)
    ensures Settled(PruStep(h, stuck, inputs))
  {
    hide Quiet, WithinBank, AfterBanks, ActiveAt, Ends, BankLength, SafeEdges;
  }

  lemma TickHonest(h: Hw, stuck: Pins, inputs: Pins)
    requires Inv(h) && h.pru.running && Honest(h)
    ensures Honest(PruStep(h, stuck, inputs))
  {
    hide Quiet, WithinBank, AfterBanks, ActiveAt, Ends, BankLength, SafeEdges;
  }

  lemma TickTruthful(h: Hw, stuck: Pins, inputs: Pins)
    requires Inv(h) && h.pru.running && Truthful(h)
    ensures Truthful(PruStep(h, stuck, inputs))
  {
    hide Quiet, WithinBank, AfterBanks, ActiveAt, Ends, BankLength, SafeEdges;
  }

  /** One step of anyone else keeps all of it. */
  lemma StepRely(h: Hw, c: Choice)
    requires Inv(h)
    ensures Rely(h, Step(h, c))
  {
    match c
    case Drift(d) => DriftRely(h, d);
    case Tick(stuck, inputs) =>
      hide Inv, PruStep, Streaming, Parked, Settled, Honest, Truthful, IdleUpTo, CpswPaused;
      if h.pru.running {
        PruStepKeepsInv(h, stuck, inputs);
        TickOwned(h, stuck, inputs);
        if !Streaming(h) { TickCalm(h, stuck, inputs); }
        if Parked(h) { TickParked(h, stuck, inputs); }
        if Settled(h) { TickSettled(h, stuck, inputs); }
        if Honest(h) { TickHonest(h, stuck, inputs); }
        if Truthful(h) { TickTruthful(h, stuck, inputs); }
      }
  }

  /** Any number of steps of the others, in any order, keep all of it: in particular every pixel edge they
      make falls into an open window for its own bank. */
  lemma {:induction false} RunRely(h: Hw, cs: seq<Choice>)
    requires Inv(h)
    ensures Rely(h, Run(h, cs))
  {
    hide Rely, Step, Inv;
    if cs == [] {
      RelyReflexive(h);
    } else {
      var n := |cs| - 1;
      var g := Run(h, cs[..n]);
      RunRely(h, cs[..n]);
      assert Inv(g) by { RelyInv(h, g); }
      StepRely(g, cs[n]);
      RelyTransitive(h, g, Step(g, cs[n]));
    }
  }

  lemma RelyInv(a: Hw, b: Hw)
    requires Rely(a, b)
    ensures Inv(b)
  {
  }
}
