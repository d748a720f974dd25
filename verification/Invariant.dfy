/** The invariant tying the firmware's position to the mailbox, the quiet window and the history, and
    the facts the kernel helper may rely on while the firmware and the DMA engines run beside it. */
module Invariant {
  import opened Abi
  import opened CommandBlock
  import opened Firmware

  // ---------------------------------------------------------------- predicates on one state

  /** Every GPIO write of the pixel stream was made inside an open window, for the bank then granted. */
  predicate SafeEdges(h: Hw) {
    forall i :: 0 <= i < |h.edges| ==> h.edges[i].quiet && h.edges[i].granted == h.edges[i].bank
  }

  predicate BootCause(c: u32) {
    c in {ERROR_MAGIC, ERROR_ABI, ERROR_PROFILE, ERROR_LENGTH, ERROR_DIRECTION, ERROR_INIT_CLEAR}
  }

  /** The firmware may touch the LED pins of its bank. */
  predicate StreamingLoc(l: Loc) {
    l.Group? && !(l.at.LoadLengths? || l.at.AnnounceWait? || l.at.PublishReady? || l.at.Gate?)
  }

  /** The firmware is, or is about to be, past a released gate. */
  predicate Streaming(h: Hw) {
    && h.pru.running && h.pru.loc.Group?
    && (StreamingLoc(h.pru.loc) || (h.pru.loc.at.Gate? && h.mb.bankGrant == h.pru.loc.bank))
  }

  predicate BootState(h: Hw, b: BootLoc) {
    && h.mb.requestSeq == 0 && h.mb.completionSeq == 0 && h.mb.acceptedSeq == 0
    && h.mb.bankReady == 0 && h.mb.bankGrant == 0 && h.mb.bankDone == 0
    && h.mb.errorDetail == 0 && h.mb.status == INITIALIZING
    && ((b.ZeroCompletion? || b.ZeroReady? || b.ZeroDone? || b.ZeroAccepted? || b.AnnounceReady?) ==> h.pru.seqNo == 0)
  }

  /** In the request loop: the previous frame is finished; at most one further request is pending. */
  predicate PollState(h: Hw) {
    var m, r := h.mb, h.pru;
    && m.errorDetail == 0 && m.bankReady == 0
    && m.acceptedSeq == r.seqNo && m.completionSeq == r.seqNo
    && (m.status == READY || m.status == DONE)
    && (m.status == READY ==> r.seqNo == 0 && m.bankDone == 0)
    && (m.status == DONE ==> m.bankDone == LastBank(m.lengths))
    && (m.requestSeq == r.seqNo ==>
          m.status == DONE ==> h.sent == AfterBanks(h.base, m.lengths, r.color, 3))
    && (m.requestSeq != r.seqNo ==>
          m.requestSeq == Succ(r.seqNo) && m.bankGrant == 0 && m.wireColor <= 0xff_ffff && h.sent == h.base)
  }

  /** A request has been taken from the mailbox and is not complete. */
  predicate FrameState(h: Hw) {
    var m, r := h.mb, h.pru;
    && m.errorDetail == 0 && m.requestSeq == r.seqNo && m.completionSeq != r.seqNo && m.wireColor <= 0xff_ffff
  }

  predicate ServeState(h: Hw, at: ServeLoc) {
    var m := h.mb;
    && FrameState(h) && m.bankReady == 0 && m.bankGrant == 0 && h.sent == h.base
    && (m.status == READY || m.status == DONE)
    && (at.Accept? || at.LoadColor? || at.Announce? ==> m.bankDone == 0)
    && (at.LoadColor? || at.Announce? ==> m.acceptedSeq == h.pru.seqNo)
    && (at.Announce? ==> h.pru.color == m.wireColor)
  }

  predicate GroupState(h: Hw) {
    FrameState(h) && h.mb.acceptedSeq == h.pru.seqNo && h.pru.color == h.mb.wireColor
  }

  /** Before the release of bank k's gate. */
  predicate BeforeGate(h: Hw, k: Bank) {
    && GroupState(h)
    && h.mb.bankDone == LastBefore(h.mb.lengths, k)
    && h.sent == AfterBanks(h.base, h.mb.lengths, h.pru.color, k - 1)
  }

  predicate Armed(h: Hw, k: Bank) {
    && h.pru.ends == Ends(h.mb.lengths, k)
    && h.pru.active == ActiveAt(h.pru.ends, 0) != NONE
  }

  /** Past the release of bank k's gate: the window is open. */
  predicate InsideWindow(h: Hw, k: Bank) {
    && GroupState(h) && h.mb.bankGrant == k && Quiet(h)
    && h.mb.bankDone == LastBefore(h.mb.lengths, k)
    && BankLength(h.mb.lengths, k) != 0
  }

  predicate StreamState(h: Hw, k: Bank, symbols: nat)
    requires symbols <= 24
  {
    && InsideWindow(h, k) && h.mb.bankReady == 0
    && h.pru.ends == Ends(h.mb.lengths, k)
    && h.pru.active == ActiveAt(h.pru.ends, h.pru.pixel) != NONE
    && h.pru.pixel < 0xffff_ffff
    && h.sent == WithinBank(h.base, h.mb.lengths, h.pru.color, k, h.pru.pixel, symbols)
  }

  predicate DrainState(h: Hw, k: Bank) {
    && InsideWindow(h, k) && h.mb.bankReady == 0
    && h.sent == AfterBanks(h.base, h.mb.lengths, h.pru.color, k)
  }

  /** Inside SEND_GROUP for bank k. */
  predicate PassState(h: Hw, k: Bank, at: GroupLoc) {
    var m, r := h.mb, h.pru;
    match at
    case LoadLengths => BeforeGate(h, k) && m.bankGrant == m.bankDone && m.bankReady == 0 && m.status == RUNNING
    case AnnounceWait => BeforeGate(h, k) && m.bankGrant == m.bankDone && m.bankReady == 0 && m.status == RUNNING && Armed(h, k)
    case PublishReady => BeforeGate(h, k) && m.bankGrant == m.bankDone && m.bankReady == 0 && m.status == WAIT_BANK && Armed(h, k)
    case Gate =>
      BeforeGate(h, k) && m.bankReady == k && m.status == WAIT_BANK && Armed(h, k)
      && (m.bankGrant == m.bankDone || (m.bankGrant == k && Quiet(h)))
    case DropReady => ReleasedState(h, k) && m.bankReady == k && m.status == WAIT_BANK
    case Resume => ReleasedState(h, k) && m.bankReady == 0 && m.status == WAIT_BANK
    case Rise => r.bit <= 23 && StreamState(h, k, 23 - r.bit) && m.status == RUNNING
    case Fall => r.bit <= 23 && StreamState(h, k, 23 - r.bit) && m.status == RUNNING
    case DrainClear => DrainState(h, k) && m.status == RUNNING
    case DrainReadback => DrainState(h, k) && m.status == RUNNING
    case PublishDone => DrainState(h, k) && m.status == RUNNING
  }

  predicate ReleasedState(h: Hw, k: Bank) {
    InsideWindow(h, k) && Armed(h, k) && h.sent == AfterBanks(h.base, h.mb.lengths, h.pru.color, k - 1)
  }

  predicate CloseState(h: Hw, at: CloseLoc) {
    var m, r := h.mb, h.pru;
    && m.errorDetail == 0 && m.requestSeq == r.seqNo && m.acceptedSeq == r.seqNo && m.bankReady == 0
    && m.bankDone == LastBank(m.lengths) && m.bankGrant == LastBank(m.lengths)
    && m.status == RUNNING && r.color == m.wireColor
    && h.sent == AfterBanks(h.base, m.lengths, r.color, 3)
    && (if at.Complete? then m.completionSeq != r.seqNo else m.completionSeq == r.seqNo)
  }

  predicate FailState(h: Hw, at: FailLoc) {
    && (BootCause(h.pru.cause) || h.pru.cause == ERROR_BANK_CLEAR)
    && h.mb.status != READY && h.mb.status != DONE
    && h.mb.bankReady == 0
    && (at.Detail? <==> h.mb.errorDetail == 0)
    && (at.Halted? ==> h.mb.status == ERROR)
  }

  /** What holds while the firmware runs, by where it is. */
  predicate FirmwareOk(h: Hw) {
    match h.pru.loc
    case Boot(b) => BootState(h, b)
    case Poll => PollState(h)
    case Serve(s) => ServeState(h, s)
    case Group(k, g) => PassState(h, k, g)
    case Close(c) => CloseState(h, c)
    case Fail(f) => FailState(h, f)
  }

  predicate Inv(h: Hw) {
    Wired(h.dma) && SafeEdges(h) && (h.pru.running ==> FirmwareOk(h))
  }

  // ---------------------------------------------------------------- PRU steps

  lemma NoneIsNone(a: Pins)
    ensures a == NONE <==> forall p :: 0 <= p < 6 ==> !a[p]
  {
  }

  lemma BankNonempty(n: Lengths, k: Bank)
    ensures ActiveAt(Ends(n, k), 0) == NONE <==> BankLength(n, k) == 0
  {
    var a := ActiveAt(Ends(n, k), 0);
    NoneIsNone(a);
    assert forall p :: 0 <= p < 6 ==> a[p] == (BankOfPin(p) == k && n[p] > 0);
    assert a[0] == (k == 1 && n[0] > 0) && a[1] == (k == 1 && n[1] > 0) && a[5] == (k == 1 && n[5] > 0);
    assert a[2] == (k == 2 && n[2] > 0) && a[4] == (k == 2 && n[4] > 0) && a[3] == (k == 3 && n[3] > 0);
  }

  lemma EmptyBankSends(base: Streams, n: Lengths, color: u32, k: Bank)
    requires BankLength(n, k) == 0
    ensures AfterBanks(base, n, color, k) == AfterBanks(base, n, color, k - 1)
  {
    forall p | 0 <= p < 6
      ensures AfterBanks(base, n, color, k)[p] == AfterBanks(base, n, color, k - 1)[p]
    {
      if BankOfPin(p) == k {
        assert n[p] == 0;
        assert base[p] + Copies(color, 0) == base[p];
      }
    }
  }

  lemma StreamStart(base: Streams, n: Lengths, color: u32, k: Bank)
    ensures WithinBank(base, n, color, k, 0, 0) == AfterBanks(base, n, color, k - 1)
  {
    forall p | 0 <= p < 6
      ensures WithinBank(base, n, color, k, 0, 0)[p] == AfterBanks(base, n, color, k - 1)[p]
    {
      assert Bits(color)[..0] == [];
      assert Copies(color, 0) == [];
      assert base[p] + Copies(color, 0) + [] == base[p];
      assert base[p] + Copies(color, 0) == base[p];
    }
  }

  /** One symbol adds one bit to exactly the pins still active. */
  lemma SymbolSent(base: Streams, n: Lengths, color: u32, k: Bank, pixel: u32, bit: nat)
    requires bit <= 23
    ensures Append(WithinBank(base, n, color, k, pixel, 23 - bit), ActiveAt(Ends(n, k), pixel), BitOf(color, bit))
            == WithinBank(base, n, color, k, pixel, 24 - bit)
  {
    var s := 23 - bit;
    var active := ActiveAt(Ends(n, k), pixel);
    assert Bits(color)[s] == BitOf(color, bit);
    assert Bits(color)[..s + 1] == Bits(color)[..s] + [Bits(color)[s]];
    var before := WithinBank(base, n, color, k, pixel, s);
    var after := WithinBank(base, n, color, k, pixel, s + 1);
    forall p | 0 <= p < 6
      ensures Append(before, active, BitOf(color, bit))[p] == after[p]
    {
      if active[p] {
        assert base[p] + Copies(color, pixel) + Bits(color)[..s] + [Bits(color)[s]]
            == base[p] + Copies(color, pixel) + (Bits(color)[..s] + [Bits(color)[s]]);
      }
    }
  }

  /** At a pixel boundary the finished pins hold exactly their length, the others one pixel more. */
  lemma PixelSent(base: Streams, n: Lengths, color: u32, k: Bank, pixel: nat)
    ensures WithinBank(base, n, color, k, pixel, 24) == WithinBank(base, n, color, k, pixel + 1, 0)
  {
    var before := WithinBank(base, n, color, k, pixel, 24);
    var after := WithinBank(base, n, color, k, pixel + 1, 0);
    forall p | 0 <= p < 6
      ensures before[p] == after[p]
    {
      assert Bits(color)[..24] == Bits(color);
      assert Bits(color)[..0] == [];
      if BankOfPin(p) == k && n[p] > pixel {
        assert Copies(color, pixel + 1) == Copies(color, pixel) + Bits(color);
        assert base[p] + Copies(color, pixel) + Bits(color) == base[p] + (Copies(color, pixel) + Bits(color));
        assert base[p] + Copies(color, pixel + 1) + [] == base[p] + Copies(color, pixel + 1);
      }
    }
  }

  lemma BankSent(base: Streams, n: Lengths, color: u32, k: Bank, pixel: u32)
    requires ActiveAt(Ends(n, k), pixel) == NONE
    ensures WithinBank(base, n, color, k, pixel, 0) == AfterBanks(base, n, color, k)
  {
    var w, a := WithinBank(base, n, color, k, pixel, 0), AfterBanks(base, n, color, k);
    forall p | 0 <= p < 6
      ensures w[p] == a[p]
    {
      assert !ActiveAt(Ends(n, k), pixel)[p] by { NoneIsNone(ActiveAt(Ends(n, k), pixel)); }
    }
  }

  /** The toggle of FINISH_PIN keeps exactly the pins that have pixels left. */
  lemma Finished(ends: Lengths, pixel: u32)
    requires ActiveAt(ends, pixel) != NONE
    ensures pixel < 0xffff_ffff
    ensures FinishPins(ActiveAt(ends, pixel), ends, pixel + 1) == ActiveAt(ends, pixel + 1)
    ensures ActiveAt(ends, pixel + 1) != NONE ==> pixel + 1 < 0xffff_ffff
  {
    NoneIsNone(ActiveAt(ends, pixel));
    NoneIsNone(ActiveAt(ends, pixel + 1));
    var f, a := FinishPins(ActiveAt(ends, pixel), ends, pixel + 1), ActiveAt(ends, pixel + 1);
    assert forall p :: 0 <= p < 6 ==> f[p] == a[p];
  }

  /** A symbol inside a pixel. */
  lemma SymbolKeepsInv(h: Hw, k: Bank)
    requires SafeEdges(h) && PassState(h, k, Fall) && h.pru.bit > 0
    ensures SafeEdges(FallStep(h, k)) && PassState(FallStep(h, k), k, Rise)
    ensures FallStep(h, k).pru.loc == Group(k, Rise)
  {
    SymbolSent(h.base, h.mb.lengths, h.pru.color, k, h.pru.pixel, h.pru.bit);
  }

  /** The last symbol of a pixel, on the streams alone. */
  lemma PixelSends(base: Streams, n: Lengths, color: u32, k: Bank, pixel: u32)
    requires ActiveAt(Ends(n, k), pixel) != NONE
    ensures pixel < 0xffff_ffff
    ensures Append(WithinBank(base, n, color, k, pixel, 23), ActiveAt(Ends(n, k), pixel), BitOf(color, 0))
            == WithinBank(base, n, color, k, pixel + 1, 0)
    ensures FinishPins(ActiveAt(Ends(n, k), pixel), Ends(n, k), pixel + 1) == ActiveAt(Ends(n, k), pixel + 1)
    ensures ActiveAt(Ends(n, k), pixel + 1) == NONE ==>
            WithinBank(base, n, color, k, pixel + 1, 0) == AfterBanks(base, n, color, k)
    ensures ActiveAt(Ends(n, k), pixel + 1) != NONE ==> pixel + 1 < 0xffff_ffff
  {
    Finished(Ends(n, k), pixel);
    SymbolSent(base, n, color, k, pixel, 0);
    PixelSent(base, n, color, k, pixel);
    if ActiveAt(Ends(n, k), pixel + 1) == NONE {
      BankSent(base, n, color, k, pixel + 1);
    }
  }

  /** The last symbol of a pixel: finished pins drop out, and with the last of them the stream ends. */
  lemma PixelKeepsInv(h: Hw, k: Bank)
    requires SafeEdges(h) && PassState(h, k, Fall) && h.pru.bit == 0
    ensures var g := FallStep(h, k);
            SafeEdges(g) && g.pru.loc.Group? && g.pru.loc.bank == k && PassState(g, k, g.pru.loc.at)
  {
    hide Append, FinishPins, WithinBank, AfterBanks, ActiveAt, Ends, Bits, LastBefore, BankLength;
    PixelSends(h.base, h.mb.lengths, h.pru.color, k, h.pru.pixel);
  }

  lemma LoadKeepsInv(h: Hw, k: Bank, stuck: Pins)
    requires PassState(h, k, LoadLengths)
    ensures FirmwareOk(GroupStep(h, k, LoadLengths, stuck))
    ensures SafeEdges(h) ==> SafeEdges(GroupStep(h, k, LoadLengths, stuck))
  {
    BankNonempty(h.mb.lengths, k);
    if BankLength(h.mb.lengths, k) == 0 {
      EmptyBankSends(h.base, h.mb.lengths, h.pru.color, k);
      LastBeforeNext(h.mb.lengths, k);
    }
  }

  lemma LastBeforeNext(n: Lengths, k: Bank)
    ensures LastBefore(n, k as int + 1) == if BankLength(n, k) != 0 then k else LastBefore(n, k)
  {
  }

  lemma GateKeepsInv(h: Hw, k: Bank, at: GroupLoc, stuck: Pins)
    requires PassState(h, k, at) && SafeEdges(h)
    requires at.AnnounceWait? || at.PublishReady? || at.Gate? || at.DropReady? || at.Resume?
    ensures var g := GroupStep(h, k, at, stuck); FirmwareOk(g) || g == h
    ensures SafeEdges(GroupStep(h, k, at, stuck))
  {
    BankNonempty(h.mb.lengths, k);
    StreamStart(h.base, h.mb.lengths, h.pru.color, k);
    if at.Resume? {
      Finished(h.pru.ends, 0);
    }
    hide WithinBank, AfterBanks, ActiveAt, Ends, EnginesIdle, CpswPaused, FinishPins, LastBefore;
  }

  lemma EdgeKeepsInv(h: Hw, k: Bank, at: GroupLoc, stuck: Pins)
    requires PassState(h, k, at) && SafeEdges(h)
    requires at.Rise? || at.DrainClear?
    ensures FirmwareOk(GroupStep(h, k, at, stuck)) && SafeEdges(GroupStep(h, k, at, stuck))
  {
    hide WithinBank, AfterBanks, ActiveAt, Ends, LastBefore, BankLength, EnginesIdle, CpswPaused;
  }

  lemma DrainKeepsInv(h: Hw, k: Bank, at: GroupLoc, stuck: Pins)
    requires PassState(h, k, at) && SafeEdges(h)
    requires at.DrainReadback? || at.PublishDone?
    ensures FirmwareOk(GroupStep(h, k, at, stuck)) && SafeEdges(GroupStep(h, k, at, stuck))
  {
    hide WithinBank, AfterBanks, ActiveAt, Ends, BankLength, EnginesIdle, CpswPaused;
    LastBeforeNext(h.mb.lengths, k);
  }

  lemma GroupKeepsInv(h: Hw, stuck: Pins)
    requires Inv(h) && h.pru.running && h.pru.loc.Group?
    ensures Inv(GroupStep(h, h.pru.loc.bank, h.pru.loc.at, stuck))
  {
    hide PassState, GroupState, BeforeGate, SafeEdges;
    var k, at := h.pru.loc.bank, h.pru.loc.at;
    if at.Fall? {
      if h.pru.bit > 0 { SymbolKeepsInv(h, k); } else { PixelKeepsInv(h, k); }
    } else if at.LoadLengths? {
      LoadKeepsInv(h, k, stuck);
    } else if at.Rise? || at.DrainClear? {
      EdgeKeepsInv(h, k, at, stuck);
    } else if at.DrainReadback? || at.PublishDone? {
      DrainKeepsInv(h, k, at, stuck);
    } else {
      GateKeepsInv(h, k, at, stuck);
    }
  }

  lemma BootKeepsInv(h: Hw, stuck: Pins, inputs: Pins)
    requires Inv(h) && h.pru.running && h.pru.loc.Boot?
    ensures Inv(BootStep(h, h.pru.loc.boot, stuck, inputs))
  {
    hide Quiet, WithinBank, AfterBanks, ActiveAt, Ends, And, Or, AndNot, BankPins, ValidProfile, ValidLengths;
  }

  lemma ServeKeepsInv(h: Hw)
    requires Inv(h) && h.pru.running && h.pru.loc.Serve?
    ensures Inv(ServeStep(h, h.pru.loc.serve))
  {
    var b := AfterBanks(h.base, h.mb.lengths, h.pru.color, 0);
    assert forall p :: 0 <= p < 6 ==> b[p] == h.base[p];
    hide Quiet, WithinBank, AfterBanks, ActiveAt, Ends, BankLength;
  }

  lemma CloseKeepsInv(h: Hw)
    requires Inv(h) && h.pru.running && h.pru.loc.Close?
    ensures Inv(CloseStep(h, h.pru.loc.close))
  {
  }

  /** Every firmware step keeps the invariant: in particular no pixel edge leaves the window, and the
      gate and colour errors are unreachable. */
  lemma PruStepKeepsInv(h: Hw, stuck: Pins, inputs: Pins)
    requires Inv(h) && h.pru.running
    ensures Inv(PruStep(h, stuck, inputs))
  {
    match h.pru.loc
    case Group(k, at) => hide Inv; GroupKeepsInv(h, stuck);
    case Boot(b) => hide Inv; BootKeepsInv(h, stuck, inputs);
    case Serve(s) => hide Inv; ServeKeepsInv(h);
    case Close(c) => hide Inv; CloseKeepsInv(h);
    case Poll =>
    case Fail(f) =>
  }
}
