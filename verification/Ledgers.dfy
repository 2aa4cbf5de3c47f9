/** The notification ledger of one target and the decisions taken on it.

    Both the sequential programs and the interleaved protocol use these
    functions, so each rule of the ledger is written once. Times are in
    milliseconds. */
module Ledgers {
  import opened MailFiles

  const WAKE_PROTOCOL := 2
  const UNCERTAIN_MS := 30_000
  const DRAIN_MS := 300_000

  /** A notice identity: 16 fresh random bytes for a protocol-2 receiver, a
      digest of the pending ids otherwise. */
  datatype NoticeId = Random(nonce: nat) | Digest(ids: seq<Id>)

  datatype Phase =
    | Blank
    | Submitting
    | Failed
    | Uncertain
    | Queued
    | Written
    | Deferred
    | Receiving
    | Received

  datatype Ledger = Ledger(
    protocol: int,
    coalescing: bool,
    id: Option<NoticeId>,
    phase: Phase,
    generatedAt: int,
    notified: seq<Id>,
    attempt: seq<Id>,
    drainUntil: int)

  const NO_LEDGER := Ledger(0, false, None, Blank, 0, [], [], 0)

  /** What a host call reports. */
  datatype Answer = AnsQueued | AnsWritten | AnsDeferred | AnsFailed | AnsUncertain | AnsInvalid

  predicate FlightActive(l: Ledger, now: int) {
    && l.coalescing
    && l.protocol == WAKE_PROTOCOL
    && (l.phase == Queued || (l.phase == Receiving && now < l.drainUntil))
  }

  predicate Ambiguous(phase: Phase) {
    phase == Submitting || phase == Uncertain
  }

  datatype Decision = Absorb | Known | InProgress | Submit

  /** What a notify of a listed item does with the ledger it read. */
  function Decide(l: Ledger, item: Id, compatible: bool, now: int): Decision {
    if compatible && FlightActive(l, now) then Absorb
    else if (l.phase == Written || (l.phase == Queued && !l.coalescing)) && item in l.notified then Known
    else if Ambiguous(l.phase) && now < l.generatedAt + UNCERTAIN_MS then InProgress
    else Submit
  }

  /** Whether a new submission keeps the identity already in the ledger. */
  predicate Reuses(l: Ledger, compatible: bool) {
    && compatible
    && l.protocol == WAKE_PROTOCOL
    && l.id.Some?
    && (l.phase == Failed || Ambiguous(l.phase))
  }

  function IdentityFor(l: Ledger, compatible: bool, ids: seq<Id>, nonce: nat): NoticeId {
    if Reuses(l, compatible) then l.id.value
    else if compatible then Random(nonce)
    else Digest(ids)
  }

  /** The reservation persisted before the host is called. */
  function Begin(l: Ledger, compatible: bool, ids: seq<Id>, now: int, nonce: nat): Ledger {
    l.(protocol := if compatible then WAKE_PROTOCOL else 0,
       coalescing := false,
       id := Some(IdentityFor(l, compatible, ids, nonce)),
       phase := Submitting,
       generatedAt := now,
       attempt := ids)
  }

  predicate Accepted(answer: Answer) {
    answer == AnsQueued || answer == AnsWritten || answer == AnsDeferred
  }

  function PhaseOf(answer: Answer): Phase
    requires answer != AnsInvalid
  {
    match answer
    case AnsQueued => Queued
    case AnsWritten => Written
    case AnsDeferred => Deferred
    case AnsFailed => Failed
    case AnsUncertain => Uncertain
  }

  /** The ledger written for a host answer. An invalid receipt writes nothing. */
  function Settle(l: Ledger, compatible: bool, ids: seq<Id>, answer: Answer): Ledger
    requires answer != AnsInvalid
  {
    if Accepted(answer) then
      l.(phase := PhaseOf(answer),
         coalescing := compatible && answer == AnsQueued,
         notified := if answer == AnsDeferred then l.notified else ids,
         attempt := [])
    else
      l.(phase := PhaseOf(answer))
  }

  /** Whether a notice-specific receive names the flight in the ledger. */
  predicate Accepts(l: Ledger, notice: NoticeId) {
    && l.id == Some(notice)
    && l.protocol == WAKE_PROTOCOL
    && l.phase != Received
    && l.phase != Deferred
  }

  function Close(l: Ledger, now: int): Ledger {
    l.(phase := Received, drainUntil := now)
  }

  /** The ledger written when the named notice is observed. */
  function Observe(l: Ledger, empty: bool, now: int): Ledger {
    var seen := l.(coalescing := true);
    if empty then Close(seen, now)
    else seen.(phase := Receiving, drainUntil := now + DRAIN_MS)
  }

  /** Out-of-range limits fall back to 20. */
  function Limit(limit: int): (n: nat)
    ensures n == if 1 <= limit <= 100 then limit else 20
  {
    if limit < 1 || limit > 100 then 20 else limit
  }
}
