/** For a protocol-2 receiver and a host that queues every hint, the mailbox
    behaves like a small machine that is idle, has a hint queued, or is being
    drained under a lease: same host submissions, same batch sizes, for every
    sequence of operations. */
module FlightMachine {
  import opened Order
  import opened MailFiles
  import opened Ledgers
  import opened Mailbox
  import opened Flight

  datatype Mode = Idle | Hinted | Draining(until: int)

  datatype Machine = Machine(
    mode: Mode,
    current: Option<NoticeId>,
    pending: set<Id>,
    claimed: set<Id>,
    done: set<Id>,
    clock: int)

  // Five minutes of a drain.
  const LEASE := 300_000

  const START := Machine(Idle, None, {}, {}, {}, 0)

  datatype Op =
    | Push(id: Id, text: string)
    | Notify(id: Id, nonce: nat)
    | ReceiveAny(limit: int)
    | ReceiveNotice(notice: NoticeId, limit: int)
    | Ack(id: Id)
    | Pass(ms: nat)

  /** What one operation shows: the identity of a host submission, if it made
      one, and the ids it claimed. */
  datatype Seen = Seen(wake: Option<NoticeId>, batch: seq<Id>)

  /** A wake is already on its way or a receiver is draining. */
  predicate Covers(m: Machine) {
    m.mode == Hinted || (m.mode.Draining? && m.clock < m.mode.until)
  }

  predicate Names(m: Machine, notice: NoticeId) {
    m.current == Some(notice) && m.mode != Idle
  }

  ghost function Oldest(m: Machine, size: nat): seq<Id> {
    if |m.pending| <= size then Sorted(m.pending) else Sorted(m.pending)[..size]
  }

  /** What an operation shows: a fresh hint exactly when an unread item is
      notified and no wake covers it, and the oldest items for a receive that is
      generic or names the current flight. */
  ghost function Shows(m: Machine, op: Op): Seen {
    match op
    case Push(_, _) => Seen(None, [])
    case Notify(id, nonce) => Seen(if id in m.pending && !Covers(m) then Some(Random(nonce)) else None, [])
    case ReceiveAny(limit) => Seen(None, Oldest(m, Limit(limit)))
    case ReceiveNotice(notice, limit) => Seen(None, if Names(m, notice) then Oldest(m, Limit(limit)) else [])
    case Ack(_) => Seen(None, [])
    case Pass(_) => Seen(None, [])
  }

  ghost function TakeBatch(m: Machine, batch: seq<Id>): Machine {
    m.(pending := m.pending - IdSet(batch), claimed := m.claimed + IdSet(batch))
  }

  function ObserveNotice(m: Machine, notice: NoticeId): Machine {
    if !Names(m, notice) then m
    else if m.pending == {} then m.(mode := Idle)
    else m.(mode := Draining(m.clock + LEASE))
  }

  ghost function After(m: Machine, op: Op): Machine {
    var seen := Shows(m, op);
    match op
    case Push(id, _) => m.(pending := m.pending + {id})
    case Notify(_, _) => if seen.wake.Some? then m.(mode := Hinted, current := seen.wake) else m
    case ReceiveAny(_) => TakeBatch(m, seen.batch)
    case ReceiveNotice(notice, _) => TakeBatch(ObserveNotice(m, notice), seen.batch)
    case Ack(id) =>
      if id in m.claimed then m.(claimed := m.claimed - {id}, done := m.done + {id})
      else if id in m.pending then m.(pending := m.pending - {id}, done := m.done + {id})
      else m
    case Pass(ms) => m.(clock := m.clock + ms)
  }

  /** Everything the machine shows from a given state on. */
  ghost function Behaviour(m: Machine, trace: seq<Op>): seq<Seen>
    decreases |trace|
  {
    if trace == [] then []
    else [Shows(m, trace[0])] + Behaviour(After(m, trace[0]), trace[1..])
  }

  /** Pushed ids are fresh. */
  ghost predicate FreshPushes(trace: seq<Op>) {
    forall i, j | 0 <= i < j < |trace| && trace[i].Push? && trace[j].Push? :: trace[i].id != trace[j].id
  }

  /** The mailbox and the machine agree. */
  ghost predicate Agree(fs: Files, l: Ledger, m: Machine) {
    && fs.Disjoint()
    && m.pending == fs.pending.Keys && m.claimed == fs.claimed.Keys && m.done == fs.done.Keys
    && ReadableIds(fs) == m.pending
    && AgreeOnFlight(l, m)
  }

  predicate AgreeOnFlight(l: Ledger, m: Machine) {
    && (m.mode == Idle ==> l == NO_LEDGER || l.phase == Received)
    && (m.mode != Idle ==> l.coalescing && l.protocol == 2 && l.id.Some? && l.id == m.current)
    && (m.mode == Hinted ==> l.phase == Queued)
    && (m.mode.Draining? ==> l.phase == Receiving && l.drainUntil == m.mode.until)
  }

  function QueueingHost(nonce: nat): Host {
    Host(true, true, AnsQueued, nonce, Saves(true, true))
  }

  /** The flight after a notify of a listed item. */
  function Woken(m: Machine, nonce: nat): Machine {
    if Covers(m) then m else m.(mode := Hinted, current := Some(Random(nonce)))
  }

  lemma DecideAgrees(l: Ledger, m: Machine, item: Id)
    requires AgreeOnFlight(l, m)
    ensures Decide(l, item, true, m.clock) == if Covers(m) then Absorb else Submit
    ensures !Covers(m) ==> !Reuses(l, true)
  {
  }

  lemma WakeAgrees(l: Ledger, m: Machine, listed: seq<Id>, item: Id, nonce: nat)
    requires AgreeOnFlight(l, m)
    ensures AgreeOnFlight(NotifiedLedger(l, listed, item, true, m.clock, QueueingHost(nonce)), Woken(m, nonce))
    ensures Submits(l, item, true, m.clock, QueueingHost(nonce)) <==> !Covers(m)
    ensures !Covers(m) ==> IdentityFor(l, true, listed, nonce) == Random(nonce)
  {
    DecideAgrees(l, m, item);
  }

  lemma NotifyAgrees(
    fs: Files, l: Ledger, m: Machine, listed: seq<Id>, item: Id, nonce: nat,
    after: Ledger, handed: Option<NoticeId>)
    requires Agree(fs, l, m) && (item in listed <==> item in m.pending)
    requires if item in listed then
               && after == NotifiedLedger(l, listed, item, true, m.clock, QueueingHost(nonce))
               && handed == (if Submits(l, item, true, m.clock, QueueingHost(nonce)) then
                   Some(IdentityFor(l, true, listed, nonce)) else None)
             else after == l && handed == None
    ensures Shows(m, Notify(item, nonce)) == Seen(handed, [])
    ensures Agree(fs, after, After(m, Notify(item, nonce)))
  {
    WakeAgrees(l, m, listed, item, nonce);
    if item in listed {
      assert After(m, Notify(item, nonce)) == Woken(m, nonce);
    }
  }

  lemma BatchAgrees(fs: Files, l: Ledger, m: Machine, batch: seq<Id>)
    requires Agree(fs, l, m) && forall i | 0 <= i < |batch| :: batch[i] in m.pending
    ensures Agree(ClaimSet(fs, IdSet(batch)), l, TakeBatch(m, batch))
  {
  }

  lemma ObserveAgrees(fs: Files, l: Ledger, m: Machine, notice: NoticeId)
    requires Agree(fs, l, m)
    ensures Accepts(l, notice) <==> Names(m, notice)
    ensures Agree(fs, ReceivedLedger(l, Some(notice), Listing(fs) == [], m.clock), ObserveNotice(m, notice))
  {
    assert Listing(fs) == [] <==> m.pending == {};
  }

  function ReceiveOp(notice: Option<NoticeId>, limit: int): Op {
    if notice.Some? then ReceiveNotice(notice.value, limit) else ReceiveAny(limit)
  }

  lemma ReceivedAreOldest(fs: Files, l: Ledger, m: Machine, notice: Option<NoticeId>, limit: int)
    requires Agree(fs, l, m) && (notice.Some? ==> (Accepts(l, notice.value) <==> Names(m, notice.value)))
    ensures Shows(m, ReceiveOp(notice, limit)) == Seen(None, ReceivedIds(fs, l, notice, limit))
  {
  }

  lemma ReceivedArePending(fs: Files, l: Ledger, m: Machine, notice: Option<NoticeId>, limit: int)
    requires Agree(fs, l, m)
    ensures forall i | 0 <= i < |ReceivedIds(fs, l, notice, limit)| :: ReceivedIds(fs, l, notice, limit)[i] in m.pending
  {
    var ids := ReceivedIds(fs, l, notice, limit);
    forall i | 0 <= i < |ids|
      ensures ids[i] in m.pending
    {
      assert ids[i] == Listing(fs)[i] && Listing(fs)[i] in Listing(fs);
    }
  }

  lemma ReceiveAgrees(
    fs: Files, l: Ledger, m: Machine, notice: Option<NoticeId>, limit: int,
    after: Files, ledger: Ledger, items: seq<Item>)
    requires Agree(fs, l, m)
    requires ReceivesOldest(fs, l, after, ledger, notice, limit, m.clock, items)
    ensures Shows(m, ReceiveOp(notice, limit)) == Seen(None, Ids(items))
    ensures Agree(after, ledger, After(m, ReceiveOp(notice, limit)))
  {
    if notice.Some? {
      ObserveAgrees(fs, l, m, notice.value);
      ReceivedAreOldest(fs, l, m, notice, limit);
      ReceivedArePending(fs, l, m, notice, limit);
      BatchAgrees(fs, ledger, ObserveNotice(m, notice.value), Ids(items));
    } else {
      ReceivedAreOldest(fs, l, m, notice, limit);
      ReceivedArePending(fs, l, m, notice, limit);
      BatchAgrees(fs, ledger, m, Ids(items));
    }
  }

  lemma PushAgrees(fs: Files, l: Ledger, m: Machine, id: Id, text: string)
    requires Agree(fs, l, m) && fs.Lookup(id) == None
    ensures Agree(fs.Publish(id, Good(text)), l, After(m, Push(id, text)))
  {
    PublishAdds(fs, id, Good(text));
  }

  lemma AckAgrees(fs: Files, l: Ledger, m: Machine, id: Id)
    requires Agree(fs, l, m)
    ensures Agree(Acknowledged(fs, id), l, After(m, Ack(id)))
  {
    if id in fs.claimed { FinishClaimedMoves(fs, id); }
    else if id in fs.pending { FinishPendingMoves(fs, id); }
  }

  /** No id that is still to be pushed is in the mailbox. */
  ghost predicate Unused(fs: Files, trace: seq<Op>) {
    forall i | 0 <= i < |trace| && trace[i].Push? :: fs.Lookup(trace[i].id) == None
  }

  /** An operation brings no file into the mailbox except the one it pushes. */
  ghost predicate AddsOnly(before: Files, after: Files, op: Op) {
    forall id | after.Lookup(id).Some? :: before.Lookup(id).Some? || (op.Push? && op.id == id)
  }

  lemma StillUnused(before: Files, after: Files, trace: seq<Op>)
    requires trace != [] && FreshPushes(trace) && Unused(before, trace) && AddsOnly(before, after, trace[0])
    ensures FreshPushes(trace[1..]) && Unused(after, trace[1..])
  {
    var rest := trace[1..];
    forall i | 0 <= i < |rest|
      ensures rest[i] == trace[i + 1]
    {
    }
  }

  /** Runs one operation of a trace. */
  method RunOp(q: Queue, op: Op, clock: int, ghost m: Machine) returns (seen: Seen)
    requires q.Valid() && q.Alone() && Agree(q.files, q.ledger, m) && m.clock == clock
    requires op.Push? ==> q.files.Lookup(op.id) == None
    modifies q
    ensures q.Valid() && q.Alone()
    ensures seen == Shows(m, op) && Agree(q.files, q.ledger, After(m, op))
    ensures AddsOnly(old(q.files), q.files, op)
  {
    ghost var fs, l := q.files, q.ledger;
    match op
    case Push(id, text) =>
      q.Push(id, text);
      PushAgrees(fs, l, m, id, text);
      PublishAdds(fs, id, Good(text));
      return Seen(None, []);
    case Notify(id, nonce) =>
      seen := RunNotify(q, id, nonce, clock, m);
    case ReceiveAny(limit) =>
      seen := RunReceive(q, None, limit, clock, m);
    case ReceiveNotice(notice, limit) =>
      seen := RunReceive(q, Some(notice), limit, clock, m);
    case Ack(id) =>
      seen := RunAck(q, id, clock, m);
    case Pass(_) =>
      return Seen(None, []);
  }

  method RunNotify(q: Queue, id: Id, nonce: nat, clock: int, ghost m: Machine) returns (seen: Seen)
    requires q.Valid() && q.Alone() && Agree(q.files, q.ledger, m) && m.clock == clock
    modifies q
    ensures q.Valid() && q.Alone() && q.files == old(q.files)
    ensures seen == Shows(m, Notify(id, nonce)) && Agree(q.files, q.ledger, After(m, Notify(id, nonce)))
  {
    ghost var fs, l, listed, skipped := q.files, q.ledger, [], {};
    var r, wake;
    r, wake, listed, skipped := q.NotifyPending(id, Some(2), clock, QueueingHost(nonce));
    NotifyAgrees(fs, l, m, listed, id, nonce, q.ledger, wake);
    return Seen(wake, []);
  }

  method RunAck(q: Queue, id: Id, clock: int, ghost m: Machine) returns (seen: Seen)
    requires q.Valid() && q.Alone() && Agree(q.files, q.ledger, m) && m.clock == clock
    modifies q
    ensures q.Valid() && q.Alone()
    ensures seen == Shows(m, Ack(id)) && Agree(q.files, q.ledger, After(m, Ack(id)))
    ensures forall x | q.files.Lookup(x).Some? :: old(q.files).Lookup(x).Some?
  {
    AckAgrees(q.files, q.ledger, m, id);
    var acked := q.Ack(id);
    return Seen(None, []);
  }

  method RunReceive(q: Queue, notice: Option<NoticeId>, limit: int, clock: int, ghost m: Machine) returns (seen: Seen)
    requires q.Valid() && q.Alone() && Agree(q.files, q.ledger, m) && m.clock == clock
    modifies q
    ensures q.Valid() && q.Alone()
    ensures seen == Shows(m, ReceiveOp(notice, limit)) && Agree(q.files, q.ledger, After(m, ReceiveOp(notice, limit)))
    ensures forall id | q.files.Lookup(id).Some? :: old(q.files).Lookup(id).Some?
  {
    ghost var fs, l, skipped := q.files, q.ledger, {};
    ListingSize(fs);
    ghost var listed;
    var items, ok;
    items, ok, listed, skipped := q.Receive(notice, limit, clock, |q.files.pending|, Saves(true, true));
    OldestAreReceived(fs, l, q.files, q.ledger, notice, limit, clock, |fs.pending|, items, ok);
    ReceiveAgrees(fs, l, m, notice, limit, q.files, q.ledger, items);
    return Seen(None, Ids(items));
  }

  /** The machine behind a run that has shown `shown` and has `rest` to do. */
  ghost predicate OnCourse(fs: Files, l: Ledger, m: Machine, trace: seq<Op>, shown: seq<Seen>, rest: seq<Op>) {
    && Agree(fs, l, m) && FreshPushes(rest) && Unused(fs, rest)
    && Behaviour(START, trace) == shown + Behaviour(m, rest)
  }

  lemma StaysOnCourse(
    fs: Files, l: Ledger, m: Machine, trace: seq<Op>, shown: seq<Seen>, rest: seq<Op>, after: Files, ledger: Ledger)
    requires rest != [] && OnCourse(fs, l, m, trace, shown, rest)
    requires Agree(after, ledger, After(m, rest[0])) && AddsOnly(fs, after, rest[0])
    ensures OnCourse(after, ledger, After(m, rest[0]), trace, shown + [Shows(m, rest[0])], rest[1..])
  {
    StillUnused(fs, after, rest);
    Associative(shown, [Shows(m, rest[0])], Behaviour(After(m, rest[0]), rest[1..]));
  }

  /** Refinement: run any trace on an empty mailbox, and it shows exactly what
      the machine shows: the same host submissions and the same batches. */
  method RunTrace(trace: seq<Op>) returns (shown: seq<Seen>)
    requires FreshPushes(trace)
    ensures shown == Behaviour(START, trace)
  {
    var q := new Queue([], []);
    var clock, rest := 0, trace;
    ghost var m := START;
    shown := [];
    while rest != []
      invariant fresh(q) && q.Valid() && q.Alone()
      invariant OnCourse(q.files, q.ledger, m, trace, shown, rest) && m.clock == clock
      decreases |rest|
    {
      ghost var fs, l := q.files, q.ledger;
      var seen := RunOp(q, rest[0], clock, m);
      StaysOnCourse(fs, l, m, trace, shown, rest, q.files, q.ledger);
      shown, m := shown + [seen], After(m, rest[0]);
      if rest[0].Pass? { clock := clock + rest[0].ms; }
      rest := rest[1..];
    }
  }
}
