/** The mailbox ABI (include/dld_abi.h, include/dld_profiles.h) and the bank geometry shared by the
    firmware, the kernel helper and the userspace sender. All words are 32-bit; the one place where a
    word wraps (the request sequence) is written out in `Succ`. */
module Abi {

  type u32 = x: int | 0 <= x < 0x1_0000_0000

  /** Six string lengths in physical header order. */
  type Lengths = s: seq<u32> | |s| == 6 witness [0, 0, 0, 0, 0, 0]

  const COMMAND_MAGIC: u32 := 0x444C4431
  const ABI_VERSION: u32 := 4
  const MAX_LENGTH: u32 := 300

  const INITIALIZING: u32 := 0
  const READY: u32 := 1
  const RUNNING: u32 := 2
  const DONE: u32 := 3
  const WAIT_BANK: u32 := 4
  const ERROR: u32 := 0x8000_0000

  const ERROR_NONE: u32 := 0
  const ERROR_MAGIC: u32 := 1
  const ERROR_ABI: u32 := 2
  const ERROR_PROFILE: u32 := 3
  const ERROR_LENGTH: u32 := 4
  const ERROR_DIRECTION: u32 := 6
  const ERROR_INIT_CLEAR: u32 := 7
  const ERROR_BANK_CLEAR: u32 := 8
  const ERROR_INTERNAL: u32 := 9
  const ERROR_GATE: u32 := 10

  const WS2812B: u32 := 1
  const WS2811_HS: u32 := 2
  const WS2812B_BGR: u32 := 3
  const WS2811_HS_BGR: u32 := 4

  /** Linux errno values, negated as the kernel returns them. */
  const EINTR: int := -4
  const EIO: int := -5
  const EAGAIN: int := -11
  const EBUSY: int := -16
  const ENODEV: int := -19
  const EINVAL: int := -22
  const ERANGE: int := -34
  const ETIME: int := -62
  const EPROTO: int := -71
  const ETIMEDOUT: int := -110

  /** dld_exit_code values of the userspace commands. */
  const OK: int := 0
  const BAD_ARGUMENT: int := 2
  const PREREQUISITE: int := 3
  const INIT_FAILURE: int := 4
  const CRITICAL: int := 5
  const BUSY: int := 6
  const NOT_INITIALIZED: int := 7

  /** The next request sequence number, wrapping at 2^32. */
  function Succ(x: u32): u32 {
    if x == 0xffff_ffff then 0 else x + 1
  }

  function Max(a: u32, b: u32): u32 {
    if a > b then a else b
  }

  /** Fixed ordinals: 1 = GPIO2 (strings 0, 1, 5), 2 = GPIO1 (strings 2, 4), 3 = GPIO0 (string 3). */
  function BankOfPin(p: nat): (k: nat)
    requires p < 6
  {
    if p == 2 || p == 4 then 2 else if p == 3 then 3 else 1
  }

  function BankLength(n: Lengths, ordinal: nat): u32 {
    if ordinal == 1 then Max(n[0], Max(n[1], n[5]))
    else if ordinal == 2 then Max(n[2], n[4])
    else n[3]
  }

  /** The last nonempty bank with an ordinal below `k`; zero when there is none. */
  function LastBefore(n: Lengths, k: nat): u32 {
    if k >= 4 && BankLength(n, 3) != 0 then 3
    else if k >= 3 && BankLength(n, 2) != 0 then 2
    else if k >= 2 && BankLength(n, 1) != 0 then 1
    else 0
  }

  function LastBank(n: Lengths): u32 {
    LastBefore(n, 4)
  }

  /** The nonempty banks in ordinal order. */
  function Enabled(n: Lengths): seq<nat> {
    EnabledBefore(n, 4)
  }

  function EnabledBefore(n: Lengths, k: nat): seq<nat> {
    (if k >= 2 && BankLength(n, 1) != 0 then [1] else []) +
    (if k >= 3 && BankLength(n, 2) != 0 then [2] else []) +
    (if k >= 4 && BankLength(n, 3) != 0 then [3] else [])
  }

  predicate ValidLengths(n: Lengths) {
    forall i :: 0 <= i < 6 ==> n[i] <= MAX_LENGTH
  }

  predicate ValidProfile(p: u32) {
    WS2812B <= p <= WS2811_HS_BGR
  }

  /** A panel configuration. */
  datatype Config = Config(profile: u32, lengths: Lengths)

  predicate ValidConfig(c: Config) {
    ValidProfile(c.profile) && ValidLengths(c.lengths)
  }

  /** Wire order of a 24-bit RGB colour for a profile. */
  function WireColor(profile: u32, rgb: u32): (c: u32)
    requires rgb <= 0xff_ffff
    ensures c <= 0xff_ffff
  {
    var r, g, b := rgb / 0x1_0000, rgb / 0x100 % 0x100, rgb % 0x100;
    if profile == WS2812B then g * 0x1_0000 + r * 0x100 + b
    else if profile == WS2811_HS then rgb
    else b * 0x1_0000 + g * 0x100 + r
  }

  function Pow2(n: nat): (p: nat)
    ensures p > 0
  {
    if n == 0 then 1 else 2 * Pow2(n - 1)
  }

  predicate BitOf(x: nat, n: nat) {
    x / Pow2(n) % 2 == 1
  }
}
