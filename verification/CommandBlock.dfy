/** The 72-byte command block and the two independent readiness checks made on it: the sender's
    `dld_check_mailbox` and the kernel helper's `validate`. */
module CommandBlock {
  import opened Abi

  datatype Mailbox = Mailbox(
    magic: u32,
    abiVersion: u32,
    profile: u32,
    lengths: Lengths,
    wireColor: u32,
    requestSeq: u32,
    completionSeq: u32,
    status: u32,
    errorDetail: u32,
    bankReady: u32,
    bankGrant: u32,
    bankDone: u32,
    acceptedSeq: u32)

  /** The input half of struct dld_quiet_send. */
  datatype SendInput = SendInput(
    apiVersion: u32,
    rgb: u32,
    profile: u32,
    lengths: Lengths,
    previousSeq: u32,
    reservedClear: bool)

  const QUIET_API_VERSION: u32 := 1

  /** dld_check_mailbox: OK, BUSY or NOT_INITIALIZED. */
  function CheckMailbox(m: Mailbox): int {
    if m.magic != COMMAND_MAGIC || m.abiVersion != ABI_VERSION || !ValidProfile(m.profile) then NOT_INITIALIZED
    else if !ValidLengths(m.lengths) then NOT_INITIALIZED
    else if m.errorDetail != 0 || m.status == ERROR then NOT_INITIALIZED
    else if m.status != READY && m.status != DONE && m.status != RUNNING && m.status != WAIT_BANK then NOT_INITIALIZED
    else if m.status == RUNNING || m.status == WAIT_BANK || m.requestSeq != m.completionSeq then BUSY
    else if m.bankReady != 0 || m.bankGrant > 3 || m.bankDone > 3 || m.acceptedSeq != m.completionSeq then NOT_INITIALIZED
    else if m.status == READY then
      if m.requestSeq != 0 || m.bankDone != 0 || m.bankGrant != 0 then NOT_INITIALIZED else OK
    else if m.bankDone != LastBank(m.lengths) || m.bankGrant != LastBank(m.lengths) then NOT_INITIALIZED
    else OK
  }

  /** The part of `validate` decided before the mailbox is read. */
  predicate InputAcceptable(r: SendInput) {
    && r.apiVersion == QUIET_API_VERSION
    && r.rgb <= 0xff_ffff
    && r.reservedClear
    && ValidProfile(r.profile)
    && ValidLengths(r.lengths)
  }

  /** The part of `validate` decided on the eight handshake words alone. */
  function HandshakeCheck(r: SendInput, m: Mailbox): int {
    if m.errorDetail != 0 || m.status == ERROR then EPROTO
    else if m.status == RUNNING || m.status == WAIT_BANK || m.requestSeq != m.completionSeq then EBUSY
    else if (m.status != READY && m.status != DONE) || m.requestSeq != r.previousSeq then EPROTO
    else if m.bankReady != 0 then EPROTO
    else if m.status == READY then
      if m.requestSeq != 0 || m.acceptedSeq != 0 || m.bankGrant != 0 || m.bankDone != 0 then EPROTO else 0
    else if m.acceptedSeq != m.requestSeq || m.bankGrant != LastBank(r.lengths) || m.bankDone != LastBank(r.lengths) then EPROTO
    else 0
  }

  /** `validate` on one unchanging mailbox. */
  function KernelCheck(r: SendInput, m: Mailbox): int {
    if !InputAcceptable(r) then EINVAL
    else if m.magic != COMMAND_MAGIC || m.abiVersion != ABI_VERSION || m.profile != r.profile then EPROTO
    else if m.lengths != r.lengths then EPROTO
    else HandshakeCheck(r, m)
  }

  /** The request that dld_sender_send builds from the mailbox it has just read. */
  function BuildRequest(m: Mailbox, rgb: u32): SendInput {
    SendInput(QUIET_API_VERSION, rgb, m.profile, m.lengths, m.requestSeq, true)
  }

  /** How dld_sender_send translates a rejection made before publication. */
  function RejectionCode(result: int): int {
    if result == EBUSY then BUSY else if result == EPROTO then NOT_INITIALIZED else PREREQUISITE
  }

  /** The two validators accept exactly the same mailboxes. */
  lemma ValidatorsAgree(m: Mailbox, rgb: u32)
    requires rgb <= 0xff_ffff
    ensures CheckMailbox(m) == OK <==> KernelCheck(BuildRequest(m, rgb), m) == 0
    ensures CheckMailbox(m) == BUSY ==> KernelCheck(BuildRequest(m, rgb), m) == EBUSY
  {
    assert LastBank(m.lengths) <= 3;
  }

  /** On every rejected mailbox the sender reports the same exit code from its own check as from the
      kernel's rejection, except in two families: a profile or length outside the catalogue (the kernel
      rejects the request's own fields first) and an outstanding sequence under a status the sender does
      not know, such as INITIALIZING (the kernel tests busy first, the sender tests the status first). */
  lemma ValidatorCodesAgree(m: Mailbox, rgb: u32)
    requires rgb <= 0xff_ffff
    requires CheckMailbox(m) != OK
    ensures RejectionCode(KernelCheck(BuildRequest(m, rgb), m)) == CheckMailbox(m) <==>
            && ValidProfile(m.profile)
            && ValidLengths(m.lengths)
            && (m.magic == COMMAND_MAGIC && m.abiVersion == ABI_VERSION
                && m.errorDetail == 0 && m.status !in {READY, DONE, RUNNING, WAIT_BANK, ERROR}
                ==> m.requestSeq == m.completionSeq)
  {
    assert LastBank(m.lengths) <= 3;
  }

  /** A freshly initialised block stopped in INITIALIZING with an outstanding request separates the two. */
  lemma ValidatorCodesDiffer()
    ensures exists m: Mailbox :: CheckMailbox(m) == NOT_INITIALIZED && KernelCheck(BuildRequest(m, 0), m) == EBUSY
  {
    var m := Mailbox(COMMAND_MAGIC, ABI_VERSION, 1, [0, 0, 0, 0, 0, 0], 0, 1, 0, INITIALIZING, 0, 0, 0, 0, 0);
    assert KernelCheck(BuildRequest(m, 0), m) == EBUSY;
  }
}
