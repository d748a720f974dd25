/** The smooth flash (src/dld_flash.c): which colour to show at which time. */
module Flashes {

  const HALF_NS := 500_000_000
  const DURATION_NS := 1_000_000_000
  const IDLE_NS := 60_000_000_000

  type Color = c: int | 0 <= c <= 0xff_ffff

  datatype FlashState = FlashState(started: nat, color: Color, initialSent: bool, peakSent: bool)

  function Channel(c: Color, i: nat): (v: nat)
    requires i < 3
    ensures v <= 0xff
  {
    if i == 0 then c % 0x100 else if i == 1 then c / 0x100 % 0x100 else c / 0x100 / 0x100
  }

  function Scaled(channel: nat, weight: nat): nat {
    (channel * weight + HALF_NS / 2) / HALF_NS
  }

  lemma ScaledBounds(channel: nat, weight: nat)
    requires channel <= 0xff && weight <= HALF_NS
    ensures Scaled(channel, weight) <= channel
    ensures Scaled(channel, 0) == 0 && Scaled(channel, HALF_NS) == channel
  {
    assert channel * weight <= channel * HALF_NS;
  }

  lemma ScaledMonotone(channel: nat, a: nat, b: nat)
    requires a <= b
    ensures Scaled(channel, a) <= Scaled(channel, b)
  {
    assert channel * a <= channel * b;
  }

  function ScaleColor(color: Color, weight: nat): Color
    requires weight <= HALF_NS
  {
    ScaledBounds(Channel(color, 0), weight);
    ScaledBounds(Channel(color, 1), weight);
    ScaledBounds(Channel(color, 2), weight);
    Assembled(Scaled(Channel(color, 0), weight), Scaled(Channel(color, 1), weight), Scaled(Channel(color, 2), weight))
  }

  function Assembled(a: nat, b: nat, c: nat): Color
    requires a <= 0xff && b <= 0xff && c <= 0xff
  {
    a + 0x100 * (b + 0x100 * c)
  }

  lemma ChannelsAssembled(x: Color)
    ensures Assembled(Channel(x, 0), Channel(x, 1), Channel(x, 2)) == x
  {
  }

  lemma AssembledChannels(a: nat, b: nat, c: nat)
    requires a <= 0xff && b <= 0xff && c <= 0xff
    ensures var x := Assembled(a, b, c); Channel(x, 0) == a && Channel(x, 1) == b && Channel(x, 2) == c
  {
    assert Assembled(a, b, c) / 0x100 == b + 0x100 * c;
  }

  /** No channel brighter. */
  predicate Dimmer(a: Color, b: Color) {
    forall i :: 0 <= i < 3 ==> Channel(a, i) <= Channel(b, i)
  }

  lemma ScaleChannels(color: Color, weight: nat)
    requires weight <= HALF_NS
    ensures forall i :: 0 <= i < 3 ==> Channel(ScaleColor(color, weight), i) == Scaled(Channel(color, i), weight)
  {
    ScaledBounds(Channel(color, 0), weight);
    ScaledBounds(Channel(color, 1), weight);
    ScaledBounds(Channel(color, 2), weight);
    AssembledChannels(Scaled(Channel(color, 0), weight), Scaled(Channel(color, 1), weight), Scaled(Channel(color, 2), weight));
    hide Scaled, Channel, Assembled;
  }

  lemma ScaleMonotone(color: Color, a: nat, b: nat)
    requires a <= b <= HALF_NS
    ensures Dimmer(ScaleColor(color, a), ScaleColor(color, b))
  {
    ScaleChannels(color, a);
    ScaleChannels(color, b);
    ScaledMonotone(Channel(color, 0), a, b);
    ScaledMonotone(Channel(color, 1), a, b);
    ScaledMonotone(Channel(color, 2), a, b);
    hide Scaled, Channel, ScaleColor;
  }

  lemma ScaleEnds(color: Color)
    ensures ScaleColor(color, 0) == 0 && ScaleColor(color, HALF_NS) == color
  {
    hide Scaled, Channel, Assembled;
    ScaledBounds(Channel(color, 0), 0);
    ScaledBounds(Channel(color, 1), 0);
    ScaledBounds(Channel(color, 2), 0);
    ChannelsAssembled(color);
    BlackAssembled();
  }

  lemma BlackAssembled()
    ensures Assembled(0, 0, 0) == 0
  {
  }

  function Elapsed(s: FlashState, now: nat): nat {
    if now >= s.started then now - s.started else 0
  }

  /** dld_flash_start. */
  function Started(color: Color, now: nat): FlashState {
    FlashState(now, color, false, false)
  }

  /** How bright the next frame is, out of HALF_NS. */
  function Weight(s: FlashState, now: nat): (w: nat)
    ensures w <= HALF_NS
  {
    var e := Elapsed(s, now);
    if !s.initialSent then 0
    else if !s.peakSent && e >= HALF_NS then HALF_NS
    else if s.peakSent && e >= DURATION_NS then 0
    else if e <= HALF_NS then e else DURATION_NS - e
  }

  function After(s: FlashState, now: nat): FlashState {
    if !s.initialSent then s.(initialSent := true)
    else if Elapsed(s, now) >= HALF_NS then s.(peakSent := true)
    else s
  }

  predicate Final(s: FlashState, now: nat) {
    s.initialSent && s.peakSent && Elapsed(s, now) >= DURATION_NS
  }

  function Frame(s: FlashState, now: nat): Color {
    ScaleColor(s.color, Weight(s, now))
  }

  /** struct dld_flash. */
  class Flash {
    var started: nat
    var color: Color
    var initialSent: bool
    var peakSent: bool

    function State(): FlashState
      reads this
    {
      FlashState(started, color, initialSent, peakSent)
    }

    constructor ()
      ensures State() == Started(0, 0)
    {
      started, color, initialSent, peakSent := 0, 0, false, false;
    }

    /** dld_flash_start. */
    method Start(c: Color, now: nat)
      modifies this
      ensures State() == Started(c, now)
    {
      started, color, initialSent, peakSent := now, c, false, false;
    }

    /** dld_flash_next: the first frame is black, the first at or past the middle has exactly the colour,
        and only a frame past the end is final. */
    method Next(now: nat) returns (final: bool, rgb: Color)
      modifies this`initialSent, this`peakSent
      ensures rgb == Frame(old(State()), now) && final == Final(old(State()), now) && State() == After(old(State()), now)
    {
      ScaleEnds(color);
      var elapsed := if now >= started then now - started else 0;
      if !initialSent {
        initialSent := true;
        return false, 0;
      }
      if !peakSent && elapsed >= HALF_NS {
        peakSent := true;
        return false, color;
      }
      if peakSent && elapsed >= DURATION_NS {
        return true, 0;
      }
      var weight := if elapsed <= HALF_NS then elapsed else DURATION_NS - elapsed;
      rgb := ScaleTo(color, weight);
      final := false;
    }

    /** scale_color. */
    method ScaleTo(c: Color, weight: nat) returns (rgb: Color)
      requires weight <= HALF_NS
      ensures rgb == ScaleColor(c, weight)
    {
      var sum: nat := 0;
      var unit := 1;
      for i := 0 to 3
        invariant unit == if i == 0 then 1 else if i == 1 then 0x100 else if i == 2 then 0x1_0000 else 0x100_0000
        invariant sum == (if i > 0 then Scaled(Channel(c, 0), weight) else 0)
                       + (if i > 1 then 0x100 * Scaled(Channel(c, 1), weight) else 0)
                       + (if i > 2 then 0x1_0000 * Scaled(Channel(c, 2), weight) else 0)
      {
        ScaledBounds(Channel(c, i), weight);
        sum := sum + Scaled(Channel(c, i), weight) * unit;
        unit := unit * 0x100;
      }
      assert sum == ScaleColor(c, weight);
      rgb := sum;
    }
  }

  // ---------------------------------------------------------------- a whole flash

  /** The state after frames at the given times. */
  function AfterAll(s: FlashState, times: seq<nat>): FlashState {
    if times == [] then s else After(AfterAll(s, times[..|times| - 1]), times[|times| - 1])
  }

  function Weights(s: FlashState, times: seq<nat>): (w: seq<nat>)
    ensures |w| == |times| && forall i :: 0 <= i < |w| ==> w[i] <= HALF_NS
  {
    if times == [] then []
    else Weights(s, times[..|times| - 1]) + [Weight(AfterAll(s, times[..|times| - 1]), times[|times| - 1])]
  }

  function Frames(s: FlashState, times: seq<nat>): (f: seq<Color>)
    ensures |f| == |times|
  {
    if times == [] then []
    else Frames(s, times[..|times| - 1]) + [Frame(AfterAll(s, times[..|times| - 1]), times[|times| - 1])]
  }

  predicate Ascending(times: seq<nat>) {
    forall i, j :: 0 <= i <= j < |times| ==> times[i] <= times[j]
  }

  /** A rise to the peak at frame p and a fall after it. */
  predicate Peaks(w: seq<nat>, p: nat) {
    && p < |w| && w[0] == 0 && w[p] == HALF_NS
    && (forall i, j :: 0 <= i <= j <= p ==> w[i] <= w[j])
    && (forall i, j :: p <= i <= j < |w| ==> w[i] >= w[j])
  }

  /** The weights so far: rising, or past a peak and falling. */
  ghost predicate Shaped(s: FlashState, times: seq<nat>) {
    var w, a := Weights(s, times), AfterAll(s, times);
    && a.started == s.started && a.color == s.color && a.initialSent == (times != [])
    && (times != [] ==> w[0] == 0)
    && (forall i :: 0 <= i < |w| ==> w[i] <= HALF_NS)
    && (!a.peakSent ==>
          && (forall i, j :: 0 <= i <= j < |w| ==> w[i] <= w[j])
          && (times != [] ==> w[|w| - 1] <= Elapsed(s, times[|times| - 1])))
    && (a.peakSent ==>
          && times != [] && HALF_NS <= Elapsed(s, times[|times| - 1])
          && w[|w| - 1] >= (if Elapsed(s, times[|times| - 1]) >= DURATION_NS then 0 else DURATION_NS - Elapsed(s, times[|times| - 1]))
          && exists p :: Peaks(w, p))
  }

  lemma {:induction false} TimesShape(s: FlashState, times: seq<nat>)
    requires !s.initialSent && !s.peakSent && Ascending(times)
    ensures Shaped(s, times)
  {
    if times != [] {
      var n := |times| - 1;
      TimesShape(s, times[..n]);
      NextShape(s, times);
    }
  }

  lemma NextShape(s: FlashState, times: seq<nat>)
    requires !s.initialSent && !s.peakSent && Ascending(times) && times != []
    requires Shaped(s, times[..|times| - 1])
    ensures Shaped(s, times)
  {
    var n := |times| - 1;
    var before := times[..n];
    var a, w := AfterAll(s, before), Weights(s, before);
    var x := Weight(a, times[n]);
    var v := w + [x];
    assert Weights(s, times) == v;
    if n > 0 {
      assert before[n - 1] == times[n - 1] <= times[n];
      if a.peakSent {
        var p :| Peaks(w, p);
        assert Peaks(v, p);
      } else if Elapsed(s, times[n]) >= HALF_NS {
        assert Peaks(v, n);
      }
    }
  }

  /** Black, brightening without a step back to exactly the colour, dimming without a step up, black. */
  predicate Smooth(f: seq<Color>, color: Color, p: nat) {
    && 0 < p < |f| - 1 && f[0] == 0 && f[p] == color && f[|f| - 1] == 0
    && (forall i, j :: 0 <= i <= j <= p ==> Dimmer(f[i], f[j]))
    && (forall i, j :: p <= i <= j < |f| ==> Dimmer(f[j], f[i]))
  }

  /** A flash completed on a clock that never runs backwards, whatever the sends between its frames cost,
      is smooth. */
  lemma FlashShape(s: FlashState, times: seq<nat>) returns (p: nat)
    requires !s.initialSent && !s.peakSent && Ascending(times) && times != []
    requires Final(AfterAll(s, times[..|times| - 1]), times[|times| - 1])
    ensures Smooth(Frames(s, times), s.color, p)
  {
    var n := |times| - 1;
    TimesShape(s, times);
    TimesShape(s, times[..n]);
    var w, f := Weights(s, times), Frames(s, times);
    FramesScale(s, times);
    ScaleEnds(s.color);
    p :| Peaks(w, p);
    assert w[n] == 0;
    forall i, j | 0 <= i < |f| && 0 <= j < |f| && w[i] <= w[j]
      ensures Dimmer(f[i], f[j])
    {
      ScaleMonotone(s.color, w[i], w[j]);
    }
  }

  lemma {:induction false} FramesScale(s: FlashState, times: seq<nat>)
    ensures forall i :: 0 <= i < |times| ==> Frames(s, times)[i] == ScaleColor(s.color, Weights(s, times)[i])
    ensures AfterAll(s, times).color == s.color
  {
    if times != [] { FramesScale(s, times[..|times| - 1]); }
  }

  /** dld_flash_idle_due. */
  predicate IdleDue(now: nat, baseline: nat) {
    now >= baseline && now - baseline > IDLE_NS
  }
}
