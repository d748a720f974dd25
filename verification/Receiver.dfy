/** The UDP receiver (src/dld_udp.c): batches, latest-valid selection, flash takeover, idle timing and
    counters. Datagrams, clock readings, cancellation and send outcomes are arbitrary; counters are not
    wrapped at 2^64. */
module Receivers {
  import opened Wrappers
  import opened Flashes
  import Opc

  const BATCH := 64
  const IDLE_MS := 250
  const MS := 1_000_000

  const OK: int := 0
  const PREREQUISITE: int := 3

  datatype Datagram = Datagram(bytes: seq<byte>, truncated: bool)

  /** How the receiver classifies a datagram: one that did not fit its buffer is malformed. */
  function Classify(d: Datagram): Opc.Reading {
    if d.truncated then Opc.Malformed else Opc.Decode(d.bytes)
  }

  function Valids(log: seq<Datagram>): nat {
    if log == [] then 0 else Valids(log[..|log| - 1]) + if Classify(log[|log| - 1]).Valid? then 1 else 0
  }

  function Malformeds(log: seq<Datagram>): nat {
    if log == [] then 0 else Malformeds(log[..|log| - 1]) + if Classify(log[|log| - 1]).Malformed? then 1 else 0
  }

  function Unsupporteds(log: seq<Datagram>): nat {
    if log == [] then 0 else Unsupporteds(log[..|log| - 1]) + if Classify(log[|log| - 1]).Unsupported? then 1 else 0
  }

  /** The colour of the last valid datagram. */
  function Latest(log: seq<Datagram>): Option<nat> {
    if log == [] then None
    else if Classify(log[|log| - 1]).Valid? then Some(Classify(log[|log| - 1]).rgb)
    else Latest(log[..|log| - 1])
  }

  lemma {:induction false} CountsAddUp(log: seq<Datagram>)
    ensures Valids(log) + Malformeds(log) + Unsupporteds(log) == |log|
    ensures Latest(log).Some? <==> Valids(log) > 0
  {
    hide Classify;
    if log != [] { CountsAddUp(log[..|log| - 1]); }
  }

  /** The datagram at i is the last valid one, and has this colour. */
  predicate LastValid(log: seq<Datagram>, i: int, rgb: nat) {
    && 0 <= i < |log| && Classify(log[i]) == Opc.Valid(rgb)
    && forall j :: i < j < |log| ==> !Classify(log[j]).Valid?
  }

  /** Every datagram is counted in exactly one class, there is a latest colour iff one is valid, and it is the
      last valid one's. */
  lemma {:induction false} EachCountedOnce(log: seq<Datagram>)
    ensures Valids(log) + Malformeds(log) + Unsupporteds(log) == |log|
    ensures Latest(log).Some? <==> Valids(log) > 0
    ensures Latest(log).Some? ==> exists i :: LastValid(log, i, Latest(log).value)
  {
    hide Classify;
    CountsAddUp(log);
    if log != [] {
      var n := |log| - 1;
      var front := log[..n];
      EachCountedOnce(front);
      hide Valids, Malformeds, Unsupporteds;
      if Classify(log[n]).Valid? {
        assert LastValid(log, n, Latest(log).value);
      } else if Latest(log).Some? {
        var i :| LastValid(front, i, Latest(log).value);
        assert forall j :: 0 <= j < n ==> log[j] == front[j];
        assert LastValid(log, i, Latest(log).value);
      }
    }
  }

  /** struct packet_counts. */
  datatype Counts = Counts(
    received: nat,
    valid: nat,
    malformed: nat,
    unsupported: nat,
    coalesced: nat,
    sent: nat,
    flashFrames: nat,
    startupFlashes: nat,
    idleFlashes: nat,
    interrupted: nat)

  /** The counters after a batch: all but one of its valid datagrams were coalesced. */
  function Counted(c: Counts, log: seq<Datagram>): Counts {
    c.(received := c.received + |log|,
       valid := c.valid + Valids(log),
       malformed := c.malformed + Malformeds(log),
       unsupported := c.unsupported + Unsupporteds(log),
       coalesced := c.coalesced + if Valids(log) > 0 then Valids(log) - 1 else 0)
  }

  /** One more datagram, already counted as received. */
  function CountedOne(c: Counts, d: Datagram, had: bool): Counts {
    match Classify(d)
    case Malformed => c.(malformed := c.malformed + 1)
    case Unsupported => c.(unsupported := c.unsupported + 1)
    case Valid(_) => c.(valid := c.valid + 1, coalesced := c.coalesced + if had then 1 else 0)
  }

  /** The counters balance between two turns of the main loop. */
  predicate Balanced(c: Counts, begun: nat, flashing: Kind) {
    && c.received == c.valid + c.malformed + c.unsupported
    && c.valid == c.coalesced + c.sent
    && begun == c.startupFlashes + c.idleFlashes + c.interrupted + (if flashing.NoFlash? then 0 else 1)
  }

  /** When the loop is left in the middle of a turn they may be off by one. */
  predicate NearlyBalanced(c: Counts, begun: nat, flashing: Kind) {
    && 0 <= c.received - (c.valid + c.malformed + c.unsupported) <= 1
    && 0 <= c.valid - (c.coalesced + c.sent) <= 1
    && 0 <= c.startupFlashes + c.idleFlashes + c.interrupted + (if flashing.NoFlash? then 0 else 1) - begun <= 1
  }

  /** idle_wait_ms. */
  function IdleWait(now: nat, activity: nat, enabled: bool): nat {
    var elapsed := if now >= activity then now - activity else 0;
    if !enabled then IDLE_MS
    else if elapsed > IDLE_NS then 0
    else
      var remaining := IDLE_NS - elapsed + 1;
      if remaining >= IDLE_MS * MS then IDLE_MS else (remaining + MS - 1) / MS
  }

  /** The wait is zero exactly when an idle flash is enabled and due; otherwise, on a clock past the
      baseline, it is the least number of milliseconds after which the flash is due, cut at 250. */
  lemma IdleWaitExact(now: nat, activity: nat, enabled: bool)
    ensures IdleWait(now, activity, enabled) <= IDLE_MS
    ensures IdleWait(now, activity, enabled) == 0 <==> enabled && IdleDue(now, activity)
    ensures enabled && now >= activity && IdleWait(now, activity, enabled) > 0 ==>
              var w := IdleWait(now, activity, enabled);
              && (w < IDLE_MS ==> IdleDue(now + w * MS, activity))
              && !IdleDue(now + (w - 1) * MS, activity)
  {
  }

  datatype Kind = NoFlash | Startup | Idle

  /** What happened, in order: the receiver attached, consumed a datagram, began or ended an idle flash. */
  datatype Mark = Attached(at: nat) | Packet(at: nat) | IdleBegan(at: nat) | IdleEnded(at: nat)

  /** No idle flash begins within a minute of the attachment, a datagram, or the end of an idle flash. */
  predicate Unhurried(marks: seq<Mark>) {
    forall i, j :: 0 <= i < j < |marks| && marks[j].IdleBegan? && !marks[i].IdleBegan? ==> marks[j].at > marks[i].at + IDLE_NS
  }

  datatype Shown = FromPacket(rgb: nat) | FromFlash(rgb: nat)

  /** The frames of a flash as sends. */
  function AsSends(frames: seq<Color>): (s: seq<Shown>)
    ensures |s| == |frames|
  {
    seq(|frames|, i requires 0 <= i < |frames| => FromFlash(frames[i]))
  }

  /** A completed flash: the sends from `at` on are exactly its frames. */
  datatype Block = Block(at: nat, color: Color, frames: seq<Color>)

  ghost predicate Whole(b: Block, shown: seq<Shown>) {
    && b.at + |b.frames| <= |shown|
    && shown[b.at..b.at + |b.frames|] == AsSends(b.frames)
    && exists p :: Smooth(b.frames, b.color, p)
  }

  lemma WholeStays(b: Block, shown: seq<Shown>, more: seq<Shown>)
    requires Whole(b, shown)
    ensures Whole(b, shown + more)
  {
    assert (shown + more)[b.at..b.at + |b.frames|] == shown[b.at..b.at + |b.frames|];
  }

  /** On a clock that never ran backwards, every mark but the start of an idle flash is at or before the
      baseline, and idle flashes kept their distance. */
  ghost predicate Timely(activity: nat, readings: seq<nat>, marks: seq<Mark>) {
    && activity in readings
    && (Ascending(readings) ==>
          && Unhurried(marks)
          && forall i :: 0 <= i < |marks| && !marks[i].IdleBegan? ==> marks[i].at <= activity)
  }

  /** The flash last begun, and the times of its frames. */
  ghost predicate Playing(readings: seq<nat>, first: FlashState, times: seq<nat>) {
    && !first.initialSent && !first.peakSent
    && (Ascending(readings) ==> Ascending(times) && forall i :: 0 <= i < |times| ==> times[i] in readings)
  }

  /** A flash in progress is where its frame times put it, and its frames are the latest sends. */
  ghost predicate Current(state: FlashState, first: FlashState, times: seq<nat>, shown: seq<Shown>) {
    && state == AfterAll(first, times)
    && |times| <= |shown|
    && shown[|shown| - |times|..] == AsSends(Frames(first, times))
  }

  /** Every flash completed on an uninterrupted clock went out whole and smooth. */
  ghost predicate Completed(readings: seq<nat>, blocks: seq<Block>, shown: seq<Shown>) {
    Ascending(readings) ==> forall i :: 0 <= i < |blocks| ==> Whole(blocks[i], shown)
  }

  class Receiver {
    var counts: Counts
    var activity: nat
    var flashing: Kind
    const flash: Flash
    // History: flashes begun, clock readings, marks, colours sent, the current flash as it was begun and
    // its frame times, and the completed flashes.
    ghost var begun: nat
    ghost var readings: seq<nat>
    ghost var marks: seq<Mark>
    ghost var shown: seq<Shown>
    ghost var first: FlashState
    ghost var times: seq<nat>
    ghost var blocks: seq<Block>

    ghost predicate Valid()
      reads this, flash
    {
      && Timely(activity, readings, marks)
      && Playing(readings, first, times)
      && (!flashing.NoFlash? ==> Current(flash.State(), first, times, shown))
      && Completed(readings, blocks, shown)
      && |blocks| == counts.startupFlashes + counts.idleFlashes
    }

    /** Up to the main loop: attached at a first clock reading. */
    constructor (attached: nat, startup: bool)
      ensures fresh(flash) && Valid() && Balanced(counts, begun, flashing)
      ensures readings == [attached] && marks == [Attached(attached)] && shown == [] && begun == if startup then 1 else 0
    {
      counts := Counts(0, 0, 0, 0, 0, 0, 0, 0, 0, 0);
      activity := attached;
      readings, marks, shown, times, blocks := [attached], [Attached(attached)], [], [], [];
      flashing := if startup then Startup else NoFlash;
      begun := if startup then 1 else 0;
      first := Started(0x00ff00, attached);
      var f := new Flash();
      flash := f;
      new;
      flash.Start(0x00ff00, attached);
    }

    /** monotonic_now: any reading, or a failure. */
    method Clock() returns (ok: bool, now: nat)
      requires Valid()
      modifies this`readings
      ensures Valid() && readings == old(readings) + (if ok then [now] else [])
      ensures ok ==> now in readings && (Ascending(readings) ==> forall r :: r in readings ==> r <= now)
    {
      var reading: int := *;
      ok, now := reading >= 0, if reading >= 0 then reading else 0;
      if ok {
        ghost var before := readings;
        readings := readings + [now];
        AscendingPrefix(before, now);
      }
    }

    /** receive_batch: -1 on failure, else whether a valid colour arrived. At most 64 datagrams are taken,
        and the colour is that of the last valid one. A datagram whose arrival could not be timed is
        received but not counted further. */
    method ReceiveBatch() returns (result: int, rgb: Color, ghost log: seq<Datagram>)
      requires Valid()
      modifies this`counts, this`activity, this`readings, this`marks
      ensures Valid() && result in {-1, 0, 1} && |log| <= BATCH
      ensures var c := Counted(old(counts), log);
              counts == c || (result < 0 && counts == c.(received := c.received + 1))
      ensures result >= 0 ==> counts == Counted(old(counts), log)
      ensures result >= 0 ==> (result == 1 <==> Latest(log).Some?) && (result == 1 ==> rgb == Latest(log).value)
    {
      hide Timely, Playing, Current, Completed, Classify, Counted, CountedOne, Latest;
      ghost var begin := counts;
      EmptyLog(begin);
      log, rgb := [], 0;
      var haveColor := false;
      for i := 0 to BATCH
        invariant Valid() && |log| <= i && counts == Counted(begin, log)
        invariant haveColor == Latest(log).Some? && (haveColor ==> rgb == Latest(log).value)
      {
        var cancelled: bool := *;
        if cancelled { break; }
        var empty: bool := *;
        if empty { break; }
        var interruptedCall: bool := *;
        if interruptedCall {
          cancelled := *;
          if cancelled { break; }
          continue;
        }
        var broken: bool := *;
        if broken { return -1, rgb, log; }
        var d: Datagram := *;
        counts := counts.(received := counts.received + 1);
        var ok := Touch();
        if !ok { return -1, rgb, log; }
        LogStep(begin, log, d);
        haveColor, rgb := Count(d, haveColor, rgb);
        log := log + [d];
      }
      result := if haveColor then 1 else 0;
    }

    /** Classify one datagram and count it. */
    method Count(d: Datagram, had: bool, before: Color) returns (have: bool, rgb: Color)
      requires Valid()
      modifies this`counts
      ensures Valid() && counts == CountedOne(old(counts), d, had)
      ensures have == (had || Classify(d).Valid?) && rgb == if Classify(d).Valid? then Classify(d).rgb else before
    {
      hide Timely, Playing, Current, Completed, Opc.Decode;
      have, rgb := had, before;
      if d.truncated { counts := counts.(malformed := counts.malformed + 1); return; }
      match Opc.Decode(d.bytes) {
        case Malformed => counts := counts.(malformed := counts.malformed + 1);
        case Unsupported => counts := counts.(unsupported := counts.unsupported + 1);
        case Valid(color) =>
          counts := counts.(valid := counts.valid + 1);
          if had { counts := counts.(coalesced := counts.coalesced + 1); }
          Opc.ColorFits(d.bytes);
          rgb, have := color, true;
      }
    }

    /** A datagram was consumed: it is activity, usable or not. */
    method Touch() returns (ok: bool)
      requires Valid()
      modifies this`activity, this`readings, this`marks
      ensures Valid()
    {
      var now;
      ok, now := Clock();
      if ok {
        hide Timely, Completed, Current;
        Marked(activity, readings, marks, Packet(now));
        activity := now;
        marks := marks + [Packet(now)];
      }
    }

    /** An idle flash is due: begin it. */
    method BeginIdle(now: nat)
      requires Valid() && flashing.NoFlash? && IdleDue(now, activity)
      modifies this`flashing, this`begun, this`marks, this`first, this`times, flash
      ensures Valid() && flashing.Idle? && begun == old(begun) + 1
    {
      hide Completed;
      flash.Start(0xff0000, now);
      flashing, begun, marks := Idle, begun + 1, marks + [IdleBegan(now)];
      first, times := flash.State(), [];
      assert shown[|shown|..] == [];
    }

    /** The next frame of the flash in progress, with its time recorded; its animation clock starts at the
        first one. */
    method FlashFrame(now: nat) returns (final: bool, rgb: Color)
      requires Valid() && !flashing.NoFlash? && now in readings
      requires Ascending(readings) ==> forall r :: r in readings ==> r <= now
      modifies flash, this`first, this`times
      ensures Playing(readings, first, times) && times != []
      ensures Current(flash.State(), first, times, shown + [FromFlash(rgb)])
      ensures final ==> Final(AfterAll(first, times[..|times| - 1]), times[|times| - 1])
    {
      FlashAdvances(flash.State(), readings, first, times, shown, now);
      hide Timely, Completed, Frame, Final, Current, Playing, After;
      if !flash.initialSent {
        flash.started := now;
        first := flash.State();
      }
      ghost var before := times;
      final, rgb := flash.Next(now);
      times := times + [now];
      assert times[..|times| - 1] == before;
    }

    /** The final frame is out. */
    method EndFlash() returns (ok: bool)
      requires Valid() && !flashing.NoFlash? && times != []
      requires Final(AfterAll(first, times[..|times| - 1]), times[|times| - 1])
      modifies this`counts, this`blocks, this`activity, this`readings, this`marks, this`flashing
      ensures Timely(activity, readings, marks) && Completed(readings, blocks, shown)
      ensures counts == (if old(flashing).Startup? then old(counts).(startupFlashes := old(counts).startupFlashes + 1)
                         else old(counts).(idleFlashes := old(counts).idleFlashes + 1))
      ensures ok ==> Valid() && flashing.NoFlash?
      ensures !ok ==> flashing == old(flashing)
    {
      hide Timely, Completed, Final, Current, Playing, Frames;
      FlashDone(readings, blocks, shown, flash.State(), first, times);
      blocks := blocks + [Block(|shown| - |times|, first.color, Frames(first, times))];
      if flashing.Startup? {
        counts := counts.(startupFlashes := counts.startupFlashes + 1);
      } else {
        counts := counts.(idleFlashes := counts.idleFlashes + 1);
        var now;
        ok, now := Clock();
        if !ok { return; }
        Marked(activity, readings, marks, IdleEnded(now));
        activity := now;
        marks := marks + [IdleEnded(now)];
      }
      flashing := NoFlash;
      ok := true;
    }

    /** One turn of the main loop: take what has arrived, then send the latest colour, or the next frame of
        a flash, or wait. `more` says whether the loop goes on. Nothing is sent but the last valid colour of
        the batch just taken or, with none, a frame of the flash. */
    method Turn(idleEnabled: bool) returns (code: int, more: bool, ghost log: seq<Datagram>)
      requires Valid() && Balanced(counts, begun, flashing)
      modifies this, flash
      ensures Timely(activity, readings, marks) && Completed(readings, blocks, shown) && |log| <= BATCH
      ensures more ==> code == OK && Valid() && Balanced(counts, begun, flashing)
      ensures !more ==> NearlyBalanced(counts, begun, flashing)
      ensures shown == old(shown) || exists s :: shown == old(shown) + [s] && s.FromPacket? == Latest(log).Some?
                                              && (s.FromPacket? ==> Latest(log) == Some(s.rgb))
      ensures more && Latest(log).Some? ==> flashing.NoFlash? && shown == old(shown) + [FromPacket(Latest(log).value)]
    {
      hide Timely, Playing, Current, Completed;
      var result, rgb;
      result, rgb, log := ReceiveBatch();
      EachCountedOnce(log);
      if result < 0 { return PREREQUISITE, false, log; }
      var cancelled: bool := *;
      if cancelled { return OK, false, log; }
      var ok, now := Clock();
      if !ok { return PREREQUISITE, false, log; }
      if result == 1 {
        code, more := SendLatest(rgb);
      } else {
        code, more := Animate(idleEnabled, now);
      }
    }

    /** A valid colour takes over from any flash. */
    method SendLatest(rgb: Color) returns (code: int, more: bool)
      requires Valid() && Balanced(counts.(sent := counts.sent + 1), begun, flashing)
      modifies this`counts, this`flashing, this`shown
      ensures Timely(activity, readings, marks) && Completed(readings, blocks, shown)
      ensures more ==> code == OK && Valid() && Balanced(counts, begun, flashing) && flashing.NoFlash?
                       && shown == old(shown) + [FromPacket(rgb)]
      ensures !more ==> NearlyBalanced(counts, begun, flashing) && shown == old(shown)
    {
      hide Timely, Playing, Current, Completed;
      if !flashing.NoFlash? { counts := counts.(interrupted := counts.interrupted + 1); }
      flashing := NoFlash;
      var outcome: int := *;
      if outcome != OK { return outcome, false; }
      SendKept(readings, blocks, shown, FromPacket(rgb));
      shown := shown + [FromPacket(rgb)];
      counts := counts.(sent := counts.sent + 1);
      return OK, true;
    }

    /** No valid colour: the next frame of a flash, a new idle flash, or a wait. */
    method Animate(idleEnabled: bool, now: nat) returns (code: int, more: bool)
      requires Valid() && Balanced(counts, begun, flashing) && now in readings
      requires Ascending(readings) ==> forall r :: r in readings ==> r <= now
      modifies this, flash
      ensures Timely(activity, readings, marks) && Completed(readings, blocks, shown)
      ensures more ==> code == OK && Valid() && Balanced(counts, begun, flashing)
      ensures !more ==> NearlyBalanced(counts, begun, flashing)
      ensures shown == old(shown) || exists rgb :: shown == old(shown) + [FromFlash(rgb)]
      ensures var due := old(flashing).NoFlash? && idleEnabled && IdleDue(now, old(activity));
              && begun == old(begun) + (if due then 1 else 0)
              && (more ==> (shown == old(shown) <==> old(flashing).NoFlash? && !due))
    {
      hide Timely, Playing, Current, Completed, Final, IdleDue;
      if flashing.NoFlash? && idleEnabled && IdleDue(now, activity) {
        BeginIdle(now);
      }
      if flashing.NoFlash? {
        var broken: bool := *;
        return if broken then PREREQUISITE else OK, !broken;
      }
      var final, rgb := FlashFrame(now);
      var outcome: int := *;
      if outcome != OK { return outcome, false; }
      SendKept(readings, blocks, shown, FromFlash(rgb));
      shown := shown + [FromFlash(rgb)];
      counts := counts.(flashFrames := counts.flashFrames + 1);
      if final {
        var ok := EndFlash();
        if !ok { return PREREQUISITE, false; }
      }
      return OK, true;
    }

    /** The main loop, for any number of turns. */
    method Serve(idleEnabled: bool, turns: nat) returns (code: int)
      requires Valid() && Balanced(counts, begun, flashing)
      modifies this, flash
      ensures NearlyBalanced(counts, begun, flashing)
      ensures Timely(activity, readings, marks) && Completed(readings, blocks, shown)
    {
      hide Timely, Playing, Current, Completed;
      code := OK;
      for i := 0 to turns
        invariant Valid() && Balanced(counts, begun, flashing)
      {
        var more;
        ghost var log;
        code, more, log := Turn(idleEnabled);
        if !more { return; }
      }
    }
  }

  lemma {:induction false} InitialSent(s: FlashState, times: seq<nat>)
    ensures times != [] ==> AfterAll(s, times).initialSent
  {
    if |times| > 1 { InitialSent(s, times[..|times| - 1]); }
  }

  lemma FramesNext(s: FlashState, times: seq<nat>, now: nat)
    ensures AfterAll(s, times + [now]) == After(AfterAll(s, times), now)
    ensures AsSends(Frames(s, times + [now])) == AsSends(Frames(s, times)) + [FromFlash(Frame(AfterAll(s, times), now))]
  {
    assert (times + [now])[..|times|] == times;
  }

  lemma FlashIsWhole(b: Block, first: FlashState, times: seq<nat>, shown: seq<Shown>)
    requires !first.initialSent && !first.peakSent && Ascending(times) && times != []
    requires Final(AfterAll(first, times[..|times| - 1]), times[|times| - 1])
    requires |times| <= |shown| && shown[|shown| - |times|..] == AsSends(Frames(first, times))
    requires b == Block(|shown| - |times|, first.color, Frames(first, times))
    ensures Whole(b, shown)
  {
    hide Final, Frame, AsSends;
    var p := FlashShape(first, times);
    assert shown[b.at..b.at + |b.frames|] == shown[|shown| - |times|..];
  }

  /** A new baseline at the latest reading. */
  lemma Marked(activity: nat, readings: seq<nat>, marks: seq<Mark>, m: Mark)
    requires Timely(activity, readings, marks) && !m.IdleBegan? && m.at in readings
    requires Ascending(readings) ==> forall r :: r in readings ==> r <= m.at
    ensures Timely(m.at, readings, marks + [m])
  {
  }

  lemma FlashKept(readings: seq<nat>, blocks: seq<Block>, shown: seq<Shown>, first: FlashState, times: seq<nat>)
    requires Completed(readings, blocks, shown) && Playing(readings, first, times) && times != []
    requires Final(AfterAll(first, times[..|times| - 1]), times[|times| - 1])
    requires |times| <= |shown| && shown[|shown| - |times|..] == AsSends(Frames(first, times))
    ensures Completed(readings, blocks + [Block(|shown| - |times|, first.color, Frames(first, times))], shown)
  {
    hide Whole, Final, AsSends;
    if Ascending(readings) {
      FlashIsWhole(Block(|shown| - |times|, first.color, Frames(first, times)), first, times, shown);
    }
  }

  lemma FlashDone(readings: seq<nat>, blocks: seq<Block>, shown: seq<Shown>, state: FlashState, first: FlashState, times: seq<nat>)
    requires Completed(readings, blocks, shown) && Playing(readings, first, times) && times != []
    requires Final(AfterAll(first, times[..|times| - 1]), times[|times| - 1]) && Current(state, first, times, shown)
    ensures |times| <= |shown|
    ensures Completed(readings, blocks + [Block(|shown| - |times|, first.color, Frames(first, times))], shown)
  {
    hide Completed, Playing, Final, AsSends, Frames;
    FlashKept(readings, blocks, shown, first, times);
  }

  /** The next frame of a flash in progress: its state, its frame, its finality and the sends so far. */
  lemma FlashAdvances(state: FlashState, readings: seq<nat>, first: FlashState, times: seq<nat>, shown: seq<Shown>, now: nat)
    requires Playing(readings, first, times) && Current(state, first, times, shown)
    requires now in readings && (Ascending(readings) ==> forall r :: r in readings ==> r <= now)
    ensures var s := if !state.initialSent then state.(started := now) else state;
            var f := if !state.initialSent then s else first;
            && Playing(readings, f, times + [now])
            && Current(After(s, now), f, times + [now], shown + [FromFlash(Frame(s, now))])
            && Final(s, now) == Final(AfterAll(f, times), now)
  {
    InitialSent(first, times);
    var s := if !state.initialSent then state.(started := now) else state;
    var f := if !state.initialSent then s else first;
    assert AfterAll(f, times) == s && (f == first || times == []) && !f.initialSent && !f.peakSent && |times| <= |shown|;
    hide Final, Frame, After, AfterAll, Playing, Frames, AsSends, Elapsed;
    FramesNext(f, times, now);
    FramesSent(state, first, f, times, shown, FromFlash(Frame(s, now)));
    PlayingOn(readings, first, f, times, now);
  }

  lemma PlayingOn(readings: seq<nat>, first: FlashState, f: FlashState, times: seq<nat>, now: nat)
    requires Playing(readings, first, times) && !f.initialSent && !f.peakSent
    requires now in readings && (Ascending(readings) ==> forall r :: r in readings ==> r <= now)
    ensures Playing(readings, f, times + [now])
  {
  }

  lemma FramesSent(state: FlashState, first: FlashState, f: FlashState, times: seq<nat>, shown: seq<Shown>, s: Shown)
    requires Current(state, first, times, shown) && (f == first || times == [])
    ensures var all := shown + [s]; all[|all| - |times| - 1..] == AsSends(Frames(f, times)) + [s]
  {
    hide Frame, After;
    if times == [] { assert Frames(f, []) == Frames(first, []); }
    var all := shown + [s];
    assert all[|all| - |times| - 1..] == shown[|shown| - |times|..] + [s];
  }

  lemma SendKept(readings: seq<nat>, blocks: seq<Block>, shown: seq<Shown>, s: Shown)
    requires Completed(readings, blocks, shown)
    ensures Completed(readings, blocks, shown + [s])
  {
    hide Whole;
    if Ascending(readings) {
      forall i | 0 <= i < |blocks| ensures Whole(blocks[i], shown + [s]) { WholeStays(blocks[i], shown, [s]); }
    }
  }

  lemma EmptyLog(c: Counts)
    ensures Counted(c, []) == c && Latest([]) == None
  {
  }

  lemma LogStep(c: Counts, log: seq<Datagram>, d: Datagram)
    ensures var one := Counted(c, log);
            Counted(c, log + [d]) == CountedOne(one.(received := one.received + 1), d, Latest(log).Some?)
    ensures Latest(log + [d]) == if Classify(d).Valid? then Some(Classify(d).rgb) else Latest(log)
  {
    assert (log + [d])[..|log|] == log;
    EachCountedOnce(log);
  }

  lemma AscendingPrefix(before: seq<nat>, now: nat)
    ensures Ascending(before + [now]) ==> Ascending(before) && forall r :: r in before ==> r <= now
  {
    var all := before + [now];
    if Ascending(all) {
      assert all[|before|] == now;
      forall i, j | 0 <= i <= j < |before| ensures before[i] <= before[j] {
        assert all[i] <= all[j];
      }
      forall r | r in before ensures r <= now {
        var i :| 0 <= i < |before| && before[i] == r;
        assert all[i] == r && all[i] <= all[|before|];
      }
    }
  }
}
