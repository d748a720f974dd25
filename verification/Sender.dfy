/** The resident sender (src/dld_sender.c) and whole sessions: any number of initialisations, senders and
    sends against one board. The process of a sender may be killed at any point; an ioctl it is in runs to
    its end first. The command lock makes the sections that hold it exclusive; another process may hold it
    at any time. */
module Senders {
  import opened Abi
  import opened CommandBlock
  import opened Firmware
  import opened Invariant
  import opened Interference
  import opened Transaction
  import opened Kernel
  import opened Userspace

  const ENOTTY: int := -25
  const EPERM: int := -1
  const EFAULT: int := -14

  /** How the send ioctl came back: an errno of the call itself, or zero and a filled-in request. */
  datatype Reply = Reply(errno: int, result: int)

  predicate DefiniteRejection(errno: int) {
    errno == ENOTTY || errno == EPERM
  }

  /** dld_completion_matches on the words of the returned request. */
  predicate CompletionMatches(r: Request, seqNo: u32) {
    r.status == DONE && r.errorDetail == 0 && r.completionSeq == seqNo
  }

  /** The frame of one successful send, seen from the sender: every nonempty bank granted once and in
      order, each pin of length L given exactly L copies of the wire colour, the sequence advanced by one,
      and the mailbox acceptable to both validators again. */
  predicate Delivered(a: View, b: View, rgb: u32) {
    var m := a.h.mb;
    && rgb <= 0xff_ffff
    && b.grants == a.grants + Enabled(m.lengths)
    && b.h.sent == AfterBanks(a.h.sent, m.lengths, WireColor(m.profile, rgb), 3)
    && b.h.mb.requestSeq == Succ(m.requestSeq)
    && b.h.mb.profile == m.profile && b.h.mb.lengths == m.lengths
    && Idle(b.h) && b.h.pru.running
    && CheckMailbox(b.h.mb) == OK
  }

  /** In particular the next send, whatever its colour, is accepted by the kernel's validation too. */
  lemma DeliveredMeansReady(a: View, b: View, rgb: u32, next: u32)
    requires Delivered(a, b, rgb) && next <= 0xff_ffff
    ensures KernelCheck(BuildRequest(b.h.mb, next), b.h.mb) == 0
  {
    ValidatorsAgree(b.h.mb, next);
  }

  /** And every pin of every length has exactly its pixels: L whole copies of the 24 symbols. */
  lemma DeliveredPixels(a: View, b: View, rgb: u32, p: nat)
    requires Delivered(a, b, rgb) && p < 6
    ensures var n, color := a.h.mb.lengths[p], WireColor(a.h.mb.profile, rgb);
            && b.h.sent[p] == a.h.sent[p] + Copies(color, n)
            && |Copies(color, n)| == 24 * n
            && forall i :: 0 <= i < 24 * n ==> Copies(color, n)[i] == BitOf(color, 23 - i % 24)
  {
    CopiesRepeat(WireColor(a.h.mb.profile, rgb), a.h.mb.lengths[p]);
  }

  /** The whole frame is out, seen from before the send. Unless all lengths are zero and the request followed
      another, the mailbox is also ready again at once. */
  predicate WholeFrame(a: View, b: View, rgb: u32) {
    var m := a.h.mb;
    && rgb <= 0xff_ffff
    && b.grants == a.grants + Enabled(m.lengths)
    && FrameSent(a.h, b.h, WireColor(m.profile, rgb))
    && (LastBank(m.lengths) != 0 || (Settled(a.h) && m.status == READY) ==> Delivered(a, b, rgb))
  }

  /** So a sender that died after publication, whose frame came out whole, leaves a session that accepts the next
      send without an initialisation. */
  lemma WholeMeansReady(a: View, b: View, rgb: u32, next: u32)
    requires WholeFrame(a, b, rgb) && next <= 0xff_ffff
    requires LastBank(a.h.mb.lengths) != 0 || (Settled(a.h) && a.h.mb.status == READY)
    ensures CheckMailbox(b.h.mb) == OK && KernelCheck(BuildRequest(b.h.mb, next), b.h.mb) == 0
    ensures b.h.mb.requestSeq == Succ(a.h.mb.requestSeq) && Idle(b.h)
  {
    hide CheckMailbox, KernelCheck;
    DeliveredMeansReady(a, b, rgb, next);
  }

  /** What became of a send: nothing was published; the whole frame is out; it was published, failed, and the
      kernel helper cleaned up; or the sender began a cleanup of its own, which got as far as reported. */
  datatype Fate = Unsent | Whole | Withdrawn | Cleaned(report: Report)

  ghost predicate Fated(a: View, b: View, rgb: u32, f: Fate) {
    && Outside(b.h) && BanksInOrder(a, b)
    && match f
       case Unsent => NothingSent(a, b)
       case Whole => WholeFrame(a, b, rgb)
       case Withdrawn => b.req.submitted && Recovered(b.h, b.req)
       case Cleaned(report) => Reported(b.h, report)
  }

  /** The bank grants made are those of the nonempty banks in order, each once, up to some point. */
  ghost predicate BanksInOrder(a: View, b: View) {
    exists reached: nat :: reached <= 4 && b.grants == a.grants + EnabledBefore(a.h.mb.lengths, reached)
  }

  lemma NoGrants(a: View, b: View)
    requires b.grants == a.grants
    ensures BanksInOrder(a, b)
  {
    assert b.grants == a.grants + EnabledBefore(a.h.mb.lengths, 0);
  }

  lemma SomeGrants(a: View, b: View, n: Lengths, reached: nat)
    requires reached <= 4 && n == a.h.mb.lengths && b.grants == a.grants + EnabledBefore(n, reached)
    ensures BanksInOrder(a, b)
  {
  }

  class Sender {
    const device: Device
    const kernel: Helper
    var lockFd: bool
    var quietFd: bool
    var mapped: bool
    var faulted: int
    // Whether this process holds the command lock, and how often it called the kernel and cleaned up,
    // and the request of the last call.
    ghost var holding: bool
    ghost var calls: nat
    ghost var cleanups: nat
    ghost var submitted: SendInput

    ghost predicate Valid()
      reads this
    {
      && device.kernel == kernel
      && (holding ==> lockFd)
      && (faulted == 0 || faulted == CRITICAL || faulted == PREREQUISITE)
    }

    constructor (d: Device)
      ensures Valid() && device == d && kernel == d.kernel && faulted == 0 && !holding && !lockFd
      ensures calls == 0 && cleanups == 0
    {
      device := d;
      kernel := d.kernel;
      lockFd, quietFd, mapped, faulted := false, false, false, 0;
      holding, calls, cleanups := false, 0, 0;
    }

    /** unlock_sender. When the unlock fails the descriptor is closed, which releases the lock as well. */
    method Unlock() returns (code: int)
      requires Valid() && holding
      modifies this`lockFd, this`faulted, this`holding
      ensures Valid() && !holding
      ensures code == OK ==> faulted == old(faulted) && lockFd
      ensures code != OK ==> code == PREREQUISITE && faulted == PREREQUISITE && !lockFd
    {
      var released: bool := *;
      holding := false;
      if released { return OK; }
      lockFd := false;
      faulted := PREREQUISITE;
      code := PREREQUISITE;
    }

    /** dld_sender_close, or the death of the process: closing the descriptor releases the lock. */
    method Close()
      requires Valid()
      modifies this`lockFd, this`quietFd, this`mapped, this`faulted, this`holding
      ensures Valid() && !holding && !lockFd && !quietFd && !mapped && faulted == 0
    {
      lockFd, quietFd, mapped, faulted := false, false, false, 0;
      holding := false;
    }

    /** dld_sender_open. */
    method Open() returns (code: int)
      requires Valid() && !holding && Outside(kernel.h)
      modifies this`lockFd, this`quietFd, this`mapped, this`faulted, this`holding, kernel`h
      ensures Valid() && !holding
      ensures Rely(old(kernel.h), kernel.h) && Outside(kernel.h)
      ensures code == OK ==> lockFd && quietFd && mapped && faulted == 0
      ensures code != OK ==> !lockFd && !quietFd && !mapped && faulted == 0
    {
      hide Outside, Rely;
      Close();
      OutsideInv(kernel.h);
      RelyReflexive(kernel.h);
      var locked: bool := *;
      if !locked {
        var busy: bool := *;
        return if busy then BUSY else PREREQUISITE;
      }
      lockFd, holding := true, true;
      var present: bool := *;
      if !present { Close(); return PREREQUISITE; }
      mapped := true;
      var m := device.Snapshot();
      code := CheckMailbox(m);
      if code != OK { Close(); return; }
      var attached: bool := *;
      if !attached { Close(); return PREREQUISITE; }
      quietFd := true;
      code := Unlock();
      if code != OK { Close(); }
    }

    /** The process dies: the kernel closes its descriptors and mappings, and with them the lock is gone. */
    method Die() returns (code: int)
      requires Valid()
      modifies this`lockFd, this`quietFd, this`mapped, this`faulted, this`holding
      ensures Valid() && !holding && !lockFd && !quietFd && !mapped && code == KILLED
    {
      Close();
      return KILLED;
    }

    /** The ioctl: rejected outright, failed copying the request in, or carried out, in which case copying
        the result back may still fail. */
    method Ioctl(input: SendInput) returns (reply: Reply, ghost performed: bool, ghost reached: nat)
      requires Valid() && Outside(kernel.h) && kernel.PacedRuns()
      modifies this`calls, this`submitted
      modifies kernel`h, kernel`req, kernel`ledger, kernel`runs, kernel`grants, kernel`writes, kernel`bus, kernel`acts
      ensures Valid() && Outside(kernel.h) && kernel.h.cpu == old(kernel.h).cpu && calls == old(calls) + 1 && submitted == input
      ensures DefiniteRejection(reply.errno) ==> !performed
      ensures reached <= 4 && kernel.grants == old(kernel.grants) + EnabledBefore(input.lengths, reached)
      ensures !performed ==> reply.errno != 0 && kernel.Now() == old(kernel.Now()) && kernel.ledger == old(kernel.ledger)
      ensures performed ==>
                && kernel.req.input == input && kernel.ledger == old(kernel.ledger)
                && (!kernel.req.submitted ==> reply.result != 0 && NothingSent(old(kernel.Now()), kernel.Now()))
                && (reply.result == 0 ==> SendComplete(old(kernel.Now()), kernel.Now()))
                && (kernel.req.submitted && reply.result != 0 ==> Recovered(kernel.h, kernel.req))
    {
      calls, submitted, performed, reached := calls + 1, input, false, 0;
      assert kernel.grants == kernel.grants + EnabledBefore(input.lengths, 0);
      var accepted: bool := *;
      if !accepted {
        var unknown: bool := *;
        return Reply(if unknown then ENOTTY else EPERM, 0), false, 0;
      }
      var copiedIn: bool := *;
      if !copiedIn { return Reply(EFAULT, 0), false, 0; }
      kernel.req := Request(input, false, 0, 0, 0, 0, 0, 0, 0, 0, Validating, [0, 0, 0], [0, 0, 0],
                            {}, {}, {}, {}, {}, {}, {});
      hide Outside, NothingSent, SendComplete, Recovered, Helper.PacedRuns, EnabledBefore;
      var result;
      result, reached := kernel.PerformSend();
      var copiedOut: bool := *;
      return Reply(if copiedOut then 0 else EFAULT, result), true, reached;
    }

    /** dld_sender_send. The lock is held only during the call. A fault is sticky and blocks the ioctl. The
        request carries the profile, lengths and sequence of the mailbox read under the same lock. Unless
        the frame was delivered, every outcome but CRITICAL left the hardware alone, and CRITICAL was
        cleaned up exactly once, leaving both cores disabled, the mailbox invalid and every block that could
        be configured low. Killed at any point the sender holds nothing, and the frame is unsent, whole,
        withdrawn by the kernel, or its own cleanup is cut short at a known point. */
    method Send(rgb: u32) returns (code: int, ghost fate: Fate)
      requires Valid() && !holding && Outside(kernel.h) && kernel.PacedRuns()
      modifies this`lockFd, this`quietFd, this`mapped, this`faulted, this`holding, this`calls, this`submitted, this`cleanups
      modifies device`outputs
      modifies kernel`h, kernel`req, kernel`ledger, kernel`runs, kernel`grants, kernel`writes, kernel`bus, kernel`acts
      ensures Valid() && !holding && Outside(kernel.h) && kernel.ledger == old(kernel.ledger)
      ensures old(faulted) != 0 ==> faulted == old(faulted) && calls == old(calls)
                                    && code == if rgb > 0xff_ffff then BAD_ARGUMENT else old(faulted)
      ensures calls <= old(calls) + 1
      ensures var m := old(kernel.h).mb;
              calls > old(calls) ==> submitted == SendInput(QUIET_API_VERSION, rgb, m.profile, m.lengths, m.requestSeq, true)
      ensures Fated(old(kernel.Now()), kernel.Now(), rgb, fate)
      ensures code == OK ==> fate.Whole? && Delivered(old(kernel.Now()), kernel.Now(), rgb) && faulted == 0
      ensures code in {BAD_ARGUMENT, BUSY, NOT_INITIALIZED} ==> fate.Unsent?
      ensures code == PREREQUISITE ==>
                fate.Unsent? || (fate.Whole? && Delivered(old(kernel.Now()), kernel.Now(), rgb))
      ensures code == CRITICAL ==> faulted == CRITICAL
      ensures code == CRITICAL && old(faulted) == 0 ==>
                fate.Cleaned? && RanToEnd(fate.report) && Stopped(kernel.h) && kernel.h.mb.magic == 0
      ensures code == KILLED ==> !lockFd && !quietFd && !mapped
      ensures code in {OK, BAD_ARGUMENT, BUSY, NOT_INITIALIZED, PREREQUISITE, CRITICAL, KILLED}
      ensures cleanups == old(cleanups) + (if fate.Cleaned? then 1 else 0)
      ensures fate.Cleaned? ==> code in {CRITICAL, KILLED}
    {
      hide Outside, Rely, SendComplete, Recovered, CheckMailbox, Idle, WholeFrame, Delivered, BanksInOrder, Reported, Helper.PacedRuns;
      ghost var begin := kernel.Now();
      fate := Unsent;
      OutsideReflexive(kernel.h);
      NoGrants(begin, begin);
      if rgb > 0xff_ffff { return BAD_ARGUMENT, fate; }
      if faulted != 0 { return faulted, fate; }
      if !mapped || !lockFd || !quietFd { return NOT_INITIALIZED, fate; }
      var locked: bool := *;
      if !locked {
        var busy: bool := *;
        return if busy then BUSY else PREREQUISITE, fate;
      }
      holding := true;
      var killed: bool := *;
      if killed { code := Die(); return; }
      var uncertain;
      code, uncertain, fate := Locked(rgb);
      killed := *;
      if killed { code := Die(); return; }
      if uncertain && code != OK {
        ghost var sent := kernel.Now();
        code, fate := CleanUp();
        FatedCleaned(begin, sent, kernel.Now(), rgb, fate);
        killed := *;
        if killed || code == KILLED { code := Die(); return; }
        faulted := CRITICAL;
      }
      if code == OK {
        code := Unlock();
      } else {
        var fault := faulted;
        var ignored := Unlock();
        if fault != 0 { faulted := fault; }
      }
    }

    /** The sender's own cleanup. */
    method CleanUp() returns (code: int, ghost fate: Fate)
      requires Valid() && Outside(kernel.h)
      modifies this`cleanups, device`outputs, kernel`h, kernel`bus
      ensures Valid() && Outside(kernel.h) && cleanups == old(cleanups) + 1
      ensures fate.Cleaned? && Reported(kernel.h, fate.report) && code in {CRITICAL, KILLED}
      ensures code == CRITICAL ==> RanToEnd(fate.report) && Stopped(kernel.h) && kernel.h.mb.magic == 0
    {
      hide Outside, StopLog, ReadsLow;
      ghost var report, log, stopped;
      code, report, log, stopped := device.Cleanup();
      cleanups := cleanups + 1;
      fate := Cleaned(report);
      code := if code == 0 then CRITICAL else KILLED;
    }

    /** The part of dld_sender_send that holds the lock, up to its common exit: the code if it is not killed,
        and what has become of the frame. */
    method Locked(rgb: u32) returns (code: int, uncertain: bool, ghost fate: Fate)
      requires Valid() && holding && Outside(kernel.h) && kernel.PacedRuns() && rgb <= 0xff_ffff
      modifies this`calls, this`submitted
      modifies kernel`h, kernel`req, kernel`ledger, kernel`runs, kernel`grants, kernel`writes, kernel`bus, kernel`acts
      ensures Valid() && Outside(kernel.h) && kernel.ledger == old(kernel.ledger)
      ensures calls <= old(calls) + 1
      ensures var m := old(kernel.h).mb;
              calls > old(calls) ==> submitted == SendInput(QUIET_API_VERSION, rgb, m.profile, m.lengths, m.requestSeq, true)
      ensures code in {OK, BUSY, NOT_INITIALIZED, PREREQUISITE, CRITICAL}
      ensures Fated(old(kernel.Now()), kernel.Now(), rgb, fate) && !fate.Cleaned?
      ensures code == OK ==> fate.Whole? && Delivered(old(kernel.Now()), kernel.Now(), rgb)
      ensures code == CRITICAL ==> uncertain
      ensures code != OK && code != CRITICAL ==> !uncertain && fate.Unsent?
    {
      hide Outside, Rely, Recovered, CheckMailbox, Idle, Helper.PacedRuns, SendComplete, Delivered, WholeFrame, BanksInOrder, EnabledBefore;
      ghost var begin := kernel.Now();
      uncertain, fate := false, Unsent;
      var m := device.Snapshot();
      OwnedRely(begin.h, kernel.h);
      NoGrants(begin, kernel.Now());
      code := CheckMailbox(m);
      if code != OK { CheckCodes(m); return; }
      var request := BuildRequest(m, rgb);
      var cancelled: bool := *;
      if cancelled { return PREREQUISITE, false, fate; }
      ghost var before := kernel.Now();
      var reply;
      ghost var performed, reached;
      reply, performed, reached := Ioctl(request);
      SomeGrants(begin, kernel.Now(), m.lengths, reached);
      if !performed || !kernel.req.submitted {
        if !performed { RelyReflexiveAfter(begin.h, before.h); }
        UnsentAfter(begin, before, kernel.Now());
      } else if reply.result == 0 {
        fate := Whole;
        WholeAfter(begin, before, kernel.Now(), rgb);
      } else {
        fate := Withdrawn;
      }
      if reply.errno != 0 {
        if DefiniteRejection(reply.errno) { return PREREQUISITE, false, fate; }
        return CRITICAL, true, fate;
      }
      uncertain := kernel.req.submitted;
      if reply.result != 0 && !uncertain {
        RejectionCodes(reply.result);
        return RejectionCode(reply.result), false, fate;
      }
      cancelled := *;
      if reply.result != 0 || cancelled || !uncertain || kernel.req.requestSeq != Succ(m.requestSeq)
         || !CompletionMatches(kernel.req, Succ(m.requestSeq)) {
        return CRITICAL, true, fate;
      }
      DeliveredAfter(begin, before, kernel.Now(), rgb);
      return OK, true, fate;
    }
  }

  lemma RelyReflexiveAfter(a: Hw, b: Hw)
    requires Rely(a, b)
    ensures Rely(b, b)
  {
    RelyInv(a, b);
    RelyReflexive(b);
  }

  /** A cleanup grants nothing. */
  lemma FatedCleaned(a: View, b: View, c: View, rgb: u32, f: Fate)
    requires BanksInOrder(a, b) && c.grants == b.grants && f.Cleaned? && Reported(c.h, f.report)
    ensures Fated(a, c, rgb, f)
  {
    hide ReadsLow;
  }

  lemma CheckCodes(m: Mailbox)
    ensures CheckMailbox(m) in {OK, BUSY, NOT_INITIALIZED}
  {
  }

  lemma RejectionCodes(result: int)
    ensures RejectionCode(result) in {BUSY, NOT_INITIALIZED, PREREQUISITE}
  {
  }

  lemma UnsentAfter(a: View, b: View, c: View)
    requires Rely(a.h, b.h) && b.grants == a.grants && b.writes == a.writes && NothingSent(b, c)
    ensures NothingSent(a, c)
  {
    RelyTransitive(a.h, b.h, c.h);
  }

  lemma DeliveredAfter(a: View, b: View, c: View, rgb: u32)
    requires Rely(a.h, b.h) && Outside(a.h) && b.grants == a.grants
    requires SendComplete(b, c) && c.req.input.rgb == rgb && CompletionMatches(c.req, c.req.requestSeq)
    ensures Delivered(a, c, rgb)
  {
    RelyCalm(a.h, b.h);
    OwnedRely(a.h, b.h);
    hide Inv, Streaming, Rely, CheckMailbox, Idle, AfterBanks, BanksDone, Budgeted, Honest;
  }

  lemma WholeAfter(a: View, b: View, c: View, rgb: u32)
    requires Rely(a.h, b.h) && Outside(a.h) && b.grants == a.grants && SendComplete(b, c) && c.req.input.rgb == rgb
    ensures WholeFrame(a, c, rgb)
  {
    hide CheckMailbox;
    RelyCalm(a.h, b.h);
    OwnedRely(a.h, b.h);
    if LastBank(a.h.mb.lengths) != 0 || (Settled(a.h) && a.h.mb.status == READY) {
      if LastBank(a.h.mb.lengths) == 0 { ReadyStays(a.h, b.h); }
      assert CompletionMatches(c.req, c.req.requestSeq) by { hide Inv, Streaming, Rely, Honest, AfterBanks; }
      DeliveredAfter(a, b, c, rgb);
    }
    hide Inv, Streaming, Rely, Idle, AfterBanks, BanksDone, Budgeted, Honest, Delivered;
  }

  // ---------------------------------------------------------------- sessions

  /** What happens to the board between two exclusive sections, or in one of them. A process may die in any
      section; `Kill` is its death between two. */
  datatype Event = Initialise(config: Config) | Open(who: nat) | Send(who: nat, rgb: u32) | Close(who: nat) | Kill(who: nat) | Wait

  /** What one event made of the board. */
  ghost predicate Explained(e: Event, a: View, b: View, f: Fate) {
    && Outside(b.h)
    && match e
       case Initialise(c) => b.grants == a.grants && (Rely(a.h, b.h) || InitFate(c, b.h))
       case Send(_, rgb) => Fated(a, b, rgb, f)
       case _ => NothingSent(a, b)
  }

  /** A history: the board before and after each of the events. */
  ghost predicate History(events: seq<Event>, boards: seq<View>, fates: seq<Fate>) {
    && |boards| == |events| + 1 && |fates| == |events| && Outside(boards[0].h)
    && forall n :: 0 <= n < |events| ==> Explained(events[n], boards[n], boards[n + 1], fates[n])
  }

  /** Any history of initialisations, sends and deaths of resident senders on one board, in which the
      firmware and the DMA engines run throughout: every event did to the board what its own contract
      explains, no matter what came before, and every pixel edge ever made was made in an open window of its
      own bank. */
  method Session(device: Device, senders: seq<Sender>, events: seq<Event>) returns (ghost boards: seq<View>, ghost fates: seq<Fate>)
    requires Outside(device.kernel.h) && device.kernel.PacedRuns()
    requires forall i :: 0 <= i < |senders| ==> senders[i].Valid() && senders[i].device == device && !senders[i].holding
    modifies device, device.kernel, senders
    ensures Outside(device.kernel.h) && SafeEdges(device.kernel.h)
    ensures History(events, boards, fates) && boards[0] == old(device.kernel.Now()) && boards[|events|] == device.kernel.Now()
    ensures device.kernel.ledger == old(device.kernel.ledger)
    ensures forall i :: 0 <= i < |senders| ==> senders[i].Valid() && !senders[i].holding
  {
    hide Outside, Helper.PacedRuns, Rely, Explained;
    var kernel := device.kernel;
    boards, fates := [kernel.Now()], [];
    for n := 0 to |events|
      invariant Outside(kernel.h) && kernel.PacedRuns() && kernel.ledger == old(kernel.ledger)
      invariant forall i :: 0 <= i < |senders| ==> senders[i].Valid() && !senders[i].holding
      invariant History(events[..n], boards, fates) && boards[0] == old(kernel.Now()) && boards[n] == kernel.Now()
    {
      ghost var before := kernel.Now();
      ghost var fate := Happens(device, senders, events[n]);
      HistoryGrows(events[..n], boards, fates, events[n], kernel.Now(), fate);
      assert events[..n + 1] == events[..n] + [events[n]];
      boards, fates := boards + [kernel.Now()], fates + [fate];
    }
    assert events[..|events|] == events;
    OutsideSafe(kernel.h);
  }

  /** One event. */
  method Happens(device: Device, senders: seq<Sender>, e: Event) returns (ghost fate: Fate)
    requires Outside(device.kernel.h) && device.kernel.PacedRuns()
    requires forall i :: 0 <= i < |senders| ==> senders[i].Valid() && senders[i].device == device && !senders[i].holding
    modifies device, device.kernel, senders
    ensures Explained(e, old(device.kernel.Now()), device.kernel.Now(), fate)
    ensures Outside(device.kernel.h) && device.kernel.ledger == old(device.kernel.ledger)
    ensures forall i :: 0 <= i < |senders| ==> senders[i].Valid() && !senders[i].holding
  {
    hide Outside, Helper.PacedRuns, Rely, Delivered, CheckMailbox, Idle, Stopped, Reported, BanksInOrder, InitFate, WholeFrame;
    fate := Unsent;
    var kernel := device.kernel;
    OutsideReflexive(kernel.h);
    NoGrants(kernel.Now(), kernel.Now());
    match e {
      case Initialise(c) =>
        if ValidConfig(c) {
          var code;
          ghost var report;
          code, report := device.Init(c);
        }
      case Open(who) =>
        if who < |senders| { var code := senders[who].Open(); }
      case Send(who, rgb) =>
        if who < |senders| {
          var code;
          code, fate := senders[who].Send(rgb);
        }
      case Close(who) =>
        if who < |senders| { senders[who].Close(); }
      case Kill(who) =>
        if who < |senders| { senders[who].Close(); }
      case Wait =>
        device.Elapse();
    }
  }

  lemma HistoryGrows(events: seq<Event>, boards: seq<View>, fates: seq<Fate>, e: Event, b: View, f: Fate)
    requires History(events, boards, fates) && Explained(e, boards[|events|], b, f)
    ensures History(events + [e], boards + [b], fates + [f])
  {
    hide Explained, Outside;
  }

  lemma OutsideSafe(h: Hw)
    requires Outside(h)
    ensures SafeEdges(h)
  {
  }

  /** What one event puts on a string of the given profile and length: the pixels of a whole frame. */
  function Pixels(e: Event, f: Fate, profile: u32, length: u32): seq<bool> {
    if e.Send? && f.Whole? && e.rgb <= 0xff_ffff then Copies(WireColor(profile, e.rgb), length) else []
  }

  /** What a history puts on it, in order. */
  function Played(events: seq<Event>, fates: seq<Fate>, profile: u32, length: u32): seq<bool>
    requires |fates| == |events|
  {
    if events == [] then []
    else
      var n := |events| - 1;
      Played(events[..n], fates[..n], profile, length) + Pixels(events[n], fates[n], profile, length)
  }

  /** A pin's stream, and the configuration it is sent under. */
  datatype Strip = Strip(stream: seq<bool>, profile: u32, length: u32)

  function StripOf(h: Hw, p: nat): Strip
    requires p < 6
  {
    Strip(h.sent[p], h.mb.profile, h.mb.lengths[p])
  }

  /** No initialisation and no failed send. */
  predicate Smooth(events: seq<Event>, fates: seq<Fate>)
    requires |fates| == |events|
  {
    forall n :: 0 <= n < |events| ==> !events[n].Initialise? && (events[n].Send? ==> fates[n].Unsent? || fates[n].Whole?)
  }

  /** Through any history without an initialisation or a failed send, however many senders died in it, every
      pin has received exactly the frames that are whole, in order and nothing else. */
  lemma {:induction false} SessionPixels(events: seq<Event>, boards: seq<View>, fates: seq<Fate>, p: nat)
    requires History(events, boards, fates) && Smooth(events, fates) && p < 6
    ensures var a := StripOf(boards[0].h, p);
            StripOf(boards[|events|].h, p) == a.(stream := a.stream + Played(events, fates, a.profile, a.length))
  {
    hide Explained, Outside, StripOf, Pixels;
    var n := |events|;
    var a := StripOf(boards[0].h, p);
    if n == 0 {
      assert a.stream + [] == a.stream;
    } else {
      LastEvent(events, boards, fates);
      hide History;
      SessionPixels(events[..n - 1], boards[..n], fates[..n - 1], p);
      EventPixels(events[n - 1], boards[n - 1], boards[n], fates[n - 1], p);
    }
  }

  lemma LastEvent(events: seq<Event>, boards: seq<View>, fates: seq<Fate>)
    requires History(events, boards, fates) && Smooth(events, fates) && events != []
    ensures var n := |events| - 1;
            && History(events[..n], boards[..n + 1], fates[..n]) && Smooth(events[..n], fates[..n])
            && Outside(boards[n].h) && Explained(events[n], boards[n], boards[n + 1], fates[n])
  {
    hide Explained, Outside;
    var n := |events| - 1;
    if n > 0 { ExplainedOutside(events[n - 1], boards[n - 1], boards[n], fates[n - 1]); }
  }

  lemma ExplainedOutside(e: Event, a: View, b: View, f: Fate)
    requires Explained(e, a, b, f)
    ensures Outside(b.h)
  {
  }

  lemma EventPixels(e: Event, a: View, b: View, f: Fate, p: nat)
    requires Outside(a.h) && Explained(e, a, b, f) && p < 6
    requires !e.Initialise? && (e.Send? ==> f.Unsent? || f.Whole?)
    ensures var s := StripOf(a.h, p);
            StripOf(b.h, p) == s.(stream := s.stream + Pixels(e, f, s.profile, s.length))
  {
    hide Inv, Honest, Delivered, Reported, Recovered, BanksInOrder;
    if !e.Send? || f.Unsent? {
      OwnedRely(a.h, b.h);
      RelyCalm(a.h, b.h);
    }
  }
}
