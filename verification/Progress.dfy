/** The firmware does not get stuck in a stream: once its gate is released inside an open window it
    publishes bank_done after a fixed number of its own steps, if no output latch is stuck. */
module Progress {
  import opened Abi
  import opened CommandBlock
  import opened Firmware
  import opened Invariant
  import opened Interference
  import opened Transaction

  function Tock(h: Hw): Hw
    requires h.pru.running
  {
    PruStep(h, NONE, NONE)
  }

  /** n firmware steps with every latch working. */
  function Tocks(h: Hw, n: nat): Hw
    decreases n
  {
    if n == 0 || !h.pru.running then h else Tocks(Tock(h), n - 1)
  }

  lemma {:induction false} TocksAdd(h: Hw, a: nat, b: nat)
    ensures Tocks(h, a + b) == Tocks(Tocks(h, a), b)
    decreases a
  {
    hide PruStep;
    if a > 0 && h.pru.running {
      TocksAdd(Tock(h), a - 1, b);
    }
  }

  /** The machine is at this point of bank k, with everything the invariant says about it. */
  predicate At(h: Hw, k: Bank, at: GroupLoc) {
    Inv(h) && h.pru.running && h.pru.loc == Group(k, at)
  }

  lemma ActiveIffLonger(n: Lengths, k: Bank, pixel: u32)
    ensures ActiveAt(Ends(n, k), pixel) == NONE <==> BankLength(n, k) <= pixel
  {
    var a := ActiveAt(Ends(n, k), pixel);
    NoneIsNone(a);
    assert forall p :: 0 <= p < 6 ==> a[p] == (BankOfPin(p) == k && n[p] > pixel);
    assert a[0] == (k == 1 && n[0] > pixel) && a[1] == (k == 1 && n[1] > pixel) && a[5] == (k == 1 && n[5] > pixel);
    assert a[2] == (k == 2 && n[2] > pixel) && a[4] == (k == 2 && n[4] > pixel) && a[3] == (k == 3 && n[3] > pixel);
  }

  /** The parts of the state that a stream does not touch. */
  predicate Steady(a: Hw, b: Hw) {
    b.mb.lengths == a.mb.lengths && b.mb.bankGrant == a.mb.bankGrant && b.pru.running == a.pru.running
  }

  lemma RiseSteps(h: Hw, k: Bank)
    requires At(h, k, Rise)
    ensures At(Tock(h), k, Fall) && Steady(h, Tock(h))
    ensures Tock(h).pru.bit == h.pru.bit <= 23 && Tock(h).pru.pixel == h.pru.pixel < BankLength(h.mb.lengths, k)
  {
    PruStepKeepsInv(h, NONE, NONE);
    ActiveIffLonger(h.mb.lengths, k, h.pru.pixel);
    hide Quiet, WithinBank, AfterBanks, ActiveAt, Ends, BankLength, SafeEdges, LastBefore;
  }

  lemma FallSteps(h: Hw, k: Bank)
    requires At(h, k, Fall) && h.pru.pixel < BankLength(h.mb.lengths, k)
    ensures var t := Tock(h);
            && Steady(h, t)
            && (if h.pru.bit > 0 then At(t, k, Rise) && t.pru.bit == h.pru.bit - 1 && t.pru.pixel == h.pru.pixel
                else if BankLength(h.mb.lengths, k) > h.pru.pixel as int + 1
                then At(t, k, Rise) && t.pru.bit == 23 && t.pru.pixel == h.pru.pixel + 1
                else At(t, k, DrainClear) && t.pru.attempts == DRAIN_ATTEMPTS)
  {
    PruStepKeepsInv(h, NONE, NONE);
    FallEnds(h, k);
    hide Inv, PassState, BankLength, FinishPins, ActiveAt, Ends, Append, BitOf, Mark;
  }

  lemma FallEnds(h: Hw, k: Bank)
    requires At(h, k, Fall) && h.pru.pixel < BankLength(h.mb.lengths, k)
    ensures h.pru.pixel < 0xffff_ffff
    ensures FinishPins(h.pru.active, h.pru.ends, h.pru.pixel + 1) == NONE <==> BankLength(h.mb.lengths, k) <= h.pru.pixel + 1
  {
    assert h.pru.ends == Ends(h.mb.lengths, k) && h.pru.active == ActiveAt(h.pru.ends, h.pru.pixel);
    hide Inv, FinishPins, ActiveAt, Ends, BankLength;
    ActiveIffLonger(h.mb.lengths, k, h.pru.pixel);
    Finished(h.pru.ends, h.pru.pixel);
    ActiveIffLonger(h.mb.lengths, k, h.pru.pixel + 1);
  }

  lemma OneTock(h: Hw)
    requires h.pru.running
    ensures Tocks(h, 1) == Tock(h)
  {
    hide PruStep;
    assert Tocks(Tock(h), 0) == Tock(h);
  }

  /** From a rising edge the stream takes 48 steps for each pixel left, two for each bit left of this one. */
  lemma {:induction false} StreamSteps(h: Hw, k: Bank) returns (n: nat)
    requires At(h, k, Rise)
    ensures h.pru.pixel < BankLength(h.mb.lengths, k) && h.pru.bit <= 23
    ensures n == 48 * (BankLength(h.mb.lengths, k) - h.pru.pixel - 1) + 2 * (h.pru.bit + 1)
    ensures At(Tocks(h, n), k, DrainClear) && Tocks(h, n).pru.attempts == DRAIN_ATTEMPTS && Steady(h, Tocks(h, n))
    decreases BankLength(h.mb.lengths, k) - h.pru.pixel, h.pru.bit
  {
    hide Inv, PruStep, BankLength;
    RiseSteps(h, k);
    var f := Tock(h);
    FallSteps(f, k);
    var t := Tock(f);
    OneTock(h);
    OneTock(f);
    TocksAdd(h, 1, 1);
    if t.pru.loc == Group(k, Rise) {
      var m := StreamSteps(t, k);
      TocksAdd(h, 2, m);
      n := 2 + m;
    } else {
      n := 2;
    }
  }

  /** The drain and the publication take three more steps when the latches read back low. */
  lemma DrainSteps(h: Hw, k: Bank)
    requires At(h, k, DrainClear)
    ensures var t := Tocks(h, 3); Inv(t) && t.pru.running && t.mb.bankDone == k && t.pru.loc == AfterGroup(k)
  {
    var a := Tock(h);
    PruStepKeepsInv(h, NONE, NONE);
    var b := Tock(a);
    ClearedLow(h.high, k);
    PruStepKeepsInv(a, NONE, NONE);
    var c := Tock(b);
    PruStepKeepsInv(b, NONE, NONE);
    assert a.pru.loc == Group(k, DrainReadback) && a.pru.running;
    assert b.pru.loc == Group(k, PublishDone) && b.pru.running;
    hide Inv, PruStep;
    OneTock(h);
    OneTock(a);
    OneTock(b);
    TocksAdd(h, 1, 1);
    TocksAdd(h, 2, 1);
  }

  lemma ClearedLow(high: Pins, k: Bank)
    ensures And(Or(AndNot(high, BankPins(k)), NONE), BankPins(k)) == NONE
  {
    NoneIsNone(And(Or(AndNot(high, BankPins(k)), NONE), BankPins(k)));
  }

  /** A released gate: three steps to the first edge. */
  lemma GateSteps(h: Hw, k: Bank)
    requires At(h, k, Gate) && h.mb.bankGrant == k
    ensures var t := Tocks(h, 3); At(t, k, Rise) && t.pru.pixel == 0 && t.pru.bit == 23 && Steady(h, t)
  {
    var a := Tock(h);
    PruStepKeepsInv(h, NONE, NONE);
    var b := Tock(a);
    PruStepKeepsInv(a, NONE, NONE);
    var c := Tock(b);
    PruStepKeepsInv(b, NONE, NONE);
    assert a.pru.loc == Group(k, DropReady) && b.pru.loc == Group(k, Resume) && c.pru.loc == Group(k, Rise);
    assert c.pru.pixel == 0 && c.pru.bit == 23 && Steady(h, c) && a.pru.running && b.pru.running && c.pru.running;
    hide Inv, PruStep;
    OneTock(h);
    OneTock(a);
    OneTock(b);
    TocksAdd(h, 1, 1);
    TocksAdd(h, 2, 1);
  }

  /** A granted bank of L pixels is over, and bank_done published, after exactly 48 L + 6 firmware steps. */
  lemma GrantedBankCompletes(h: Hw, k: Bank)
    requires At(h, k, Gate) && h.mb.bankGrant == k
    ensures var t := Tocks(h, 48 * BankLength(h.mb.lengths, k) + 6);
            Inv(t) && t.pru.running && t.mb.bankDone == k && t.pru.loc == AfterGroup(k)
  {
    hide Inv, PruStep, BankLength;
    GateSteps(h, k);
    var a := Tocks(h, 3);
    var n := StreamSteps(a, k);
    TocksAdd(h, 3, n);
    DrainSteps(Tocks(a, n), k);
    TocksAdd(h, 3 + n, 3);
  }

  // ---------------------------------------------------------------- the final wait

  /** n firmware steps as a schedule of the others. */
  function Ticks(n: nat): seq<Choice> {
    seq(n, i => Tick(NONE, NONE))
  }

  lemma {:induction false} TicksRun(h: Hw, n: nat)
    ensures Run(h, Ticks(n)) == Tocks(h, n)
  {
    hide PruStep;
    if n > 0 {
      assert Ticks(n)[..n - 1] == Ticks(n - 1);
      TicksRun(h, n - 1);
      TocksAdd(h, n - 1, 1);
      var g := Tocks(h, n - 1);
      if g.pru.running { OneTock(g); }
    }
  }

  /** A request has just been published; the status is still that of what came before it. */
  predicate JustPublished(h: Hw) {
    Inv(h) && h.pru.running && h.pru.loc.Poll? && h.mb.requestSeq != h.pru.seqNo
  }

  /** The final wait for p's request may begin in g: with nonempty banks the last of them has been granted,
      without any nobody but the others has acted since. */
  ghost predicate WaitBegins(p: Hw, g: Hw) {
    if LastBank(p.mb.lengths) == 0 then exists cs: seq<Choice> :: g == Run(p, cs)
    else Inv(g) && g.mb.requestSeq == p.mb.requestSeq && g.mb.bankGrant == LastBank(p.mb.lengths)
  }

  /** What the others do before each of the wait's readings (status, error, accepted and completed sequence)
      and before the status reading of the diagnostic snapshot. */
  datatype Pauses = Pauses(status: seq<Choice>, detail: seq<Choice>, accepted: seq<Choice>, completed: seq<Choice>, shown: seq<Choice>)

  function Completed(g: Hw, p: Pauses): Hw {
    Run(Run(Run(Run(g, p.status), p.detail), p.accepted), p.completed)
  }

  /** The readings match. */
  predicate Matches(g: Hw, p: Pauses) {
    var a := Run(g, p.status);
    var b := Run(a, p.detail);
    var c := Run(b, p.accepted);
    a.mb.status == DONE && b.mb.errorDetail == 0 && c.mb.acceptedSeq == g.mb.requestSeq
    && Completed(g, p).mb.completionSeq == g.mb.requestSeq
  }

  function Shown(g: Hw, p: Pauses): u32 {
    Run(Completed(g, p), p.shown).mb.status
  }

  /** The final wait reads the status before the sequence words. A match means that the status is DONE, for
      every schedule, if and only if some length is nonzero or the request was published over READY. */
  lemma FinalWaitExact(h: Hw)
    requires JustPublished(h)
    ensures (forall g: Hw, p: Pauses :: WaitBegins(h, g) && Matches(g, p) ==> Shown(g, p) == DONE)
            <==> LastBank(h.mb.lengths) != 0 || h.mb.status == READY
  {
    hide Inv, Matches, Shown, WaitBegins, Run, LastBefore, JustPublished;
    if LastBank(h.mb.lengths) != 0 || h.mb.status == READY {
      forall g: Hw, p: Pauses | WaitBegins(h, g) && Matches(g, p) ensures Shown(g, p) == DONE {
        MatchIsDone(h, g, p);
      }
    } else {
      PublishedStatus(h);
      var p := StaleMatch(h);
      assert WaitBegins(h, h) && Matches(h, p) && Shown(h, p) != DONE;
    }
  }

  lemma PublishedStatus(h: Hw)
    requires JustPublished(h)
    ensures h.mb.status in {READY, DONE} && Inv(h) && h.mb.errorDetail == 0
  {
  }

  /** The sufficient half: no earlier frame's DONE is left to be seen, so the one read is this frame's. */
  lemma MatchIsDone(h: Hw, g: Hw, p: Pauses)
    requires JustPublished(h) && WaitBegins(h, g) && Matches(g, p)
    requires LastBank(h.mb.lengths) != 0 || h.mb.status == READY
    ensures Shown(g, p) == DONE
  {
    hide Inv, Run, Honest, Streaming, Settled;
    PublishedStatus(h);
    if LastBank(h.mb.lengths) != 0 {
      GrantedIsTruthful(g);
    } else {
      var cs :| g == Run(h, cs);
      RunRely(h, cs);
      TruthfulRely(h, g);
      RelyInv(h, g);
    }
    var a := Run(g, p.status);
    RunRely(g, p.status);
    TruthfulRely(g, a);
    DoneIsOver(a);
    var b := Run(a, p.detail);
    var c := Run(b, p.accepted);
    StillOver(a, p.detail);
    StillOver(b, p.accepted);
    StillOver(c, p.completed);
    StillOver(Completed(g, p), p.shown);
  }

  lemma StillOver(h: Hw, cs: seq<Choice>)
    requires Inv(h) && Over(h) && h.mb.status == DONE
    ensures var g := Run(h, cs); Inv(g) && Over(g) && g.mb.status == DONE
  {
    assert Parked(h);
    hide Inv, Run, Streaming, Honest, Settled;
    RunRely(h, cs);
  }

  /** The necessary half. For every colour and sequence number, a frame of zero lengths published over DONE
      reaches in eleven firmware steps a state whose sequence words match while its status is RUNNING. */
  lemma StaleDone(h: Hw)
    requires JustPublished(h) && h.mb.status == DONE && LastBank(h.mb.lengths) == 0
    ensures var t := Tocks(h, 11);
            t.mb.completionSeq == h.mb.requestSeq && t.mb.acceptedSeq == h.mb.requestSeq && t.mb.status == RUNNING
  {
    var served := h.(pru := h.pru.(loc := Serve(CheckGrant), seqNo := h.mb.requestSeq));
    assert Tocks(h, 1) == served by { OneTock(h); }
    ZeroServe(served);
    hide Tocks, Tock, Inv, LastBefore;
    var grouped := Tocks(served, 6);
    TocksAdd(h, 1, 6);
    ZeroGroups(grouped);
    TocksAdd(h, 7, 4);
  }

  lemma StaleMatch(h: Hw) returns (p: Pauses)
    requires JustPublished(h) && h.mb.status == DONE && LastBank(h.mb.lengths) == 0
    ensures WaitBegins(h, h) && Matches(h, p) && Shown(h, p) == RUNNING
  {
    hide Inv, Tocks, Tock, LastBefore, JustPublished;
    p := Pauses([], [], Ticks(11), [], []);
    PublishedStatus(h);
    StaleDone(h);
    TicksRun(h, 11);
    var t := Tocks(h, 11);
    assert Run(h, []) == h && Run(t, []) == t;
  }

  lemma ZeroServe(h: Hw)
    requires h.pru.running && h.pru.loc == Serve(CheckGrant) && h.mb.bankGrant == 0 && h.mb.wireColor <= 0xff_ffff
    ensures var t := Tocks(h, 6);
            && t.pru.running && t.pru.loc == Group(1, LoadLengths) && t.pru.seqNo == h.pru.seqNo && t.mb.status == RUNNING
            && t.mb.acceptedSeq == h.pru.seqNo && t.mb.lengths == h.mb.lengths
  {
    var a := Tock(h);
    var b := Tock(a);
    var c := Tock(b);
    assert a.pru.loc == Serve(ClearReady) && b.pru.loc == Serve(ClearDone) && c.pru.loc == Serve(Accept);
    var d := Tock(c);
    var e := Tock(d);
    var f := Tock(e);
    assert d.pru.loc == Serve(LoadColor) && e.pru.loc == Serve(Announce) && f.pru.loc == Group(1, LoadLengths);
    hide PruStep;
    assert Tocks(f, 0) == f;
    assert Tocks(d, 2) == f;
    assert Tocks(b, 4) == f;
  }

  lemma ZeroGroups(h: Hw)
    requires h.pru.running && h.pru.loc == Group(1, LoadLengths) && h.mb.status == RUNNING && LastBank(h.mb.lengths) == 0
    ensures var t := Tocks(h, 4);
            t.mb.completionSeq == h.pru.seqNo && t.mb.acceptedSeq == h.mb.acceptedSeq && t.mb.status == RUNNING
  {
    BankNonempty(h.mb.lengths, 1);
    BankNonempty(h.mb.lengths, 2);
    BankNonempty(h.mb.lengths, 3);
    hide ActiveAt, Ends, BankLength, LastBefore;
    var a := Tock(h);
    var b := Tock(a);
    var c := Tock(b);
    assert a.pru.loc == Group(2, LoadLengths) && b.pru.loc == Group(3, LoadLengths) && c.pru.loc == Close(Complete);
    var d := Tock(c);
    hide PruStep;
    assert Tocks(d, 0) == d;
    assert Tocks(b, 2) == d;
  }

  /** Such a state: after a completed frame with all lengths zero, just after the next one was published. */
  lemma Republished() returns (h: Hw)
    ensures JustPublished(h) && h.mb.status == DONE && LastBank(h.mb.lengths) == 0
  {
    var zero := [0, 0, 0, 0, 0, 0];
    h := Hw(Mailbox(COMMAND_MAGIC, ABI_VERSION, WS2812B, zero, 0, 2, 1, DONE, 0, 0, 0, 0, 1),
            Pru(true, Poll, 1, 0, zero, NONE, 0, 0, 0, 0),
            Dma(2, 2, [2, 2, 2], [2, 2, 2, 2, 2, 2], [0, 0, 0, 0, 0, 0], 0, 0),
            Cpu(false, false, 0), NONE, [], [[], [], [], [], [], []], [[], [], [], [], [], []]);
  }
}
