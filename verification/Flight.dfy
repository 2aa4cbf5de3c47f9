/** The sequential life of a wake: draining a flight, and the agreement of the
    programs with a machine that is idle, queued or draining. */
module Flight {
  import opened Order
  import opened MailFiles
  import opened Ledgers
  import opened Mailbox

  // ---- Draining ----

  lemma ClaimSetReadable(fs: Files, ids: set<Id>)
    ensures ReadableIds(ClaimSet(fs, ids)) == ReadableIds(fs) - ids
  {
  }

  /** After claiming the oldest n items the rest is listed in the same order. */
  lemma ListingAfterClaim(fs: Files, n: nat)
    requires n <= |Listing(fs)|
    ensures Listing(ClaimSet(fs, IdSet(Listing(fs)[..n]))) == Listing(fs)[n..]
  {
    var ids := Listing(fs);
    ClaimSetReadable(fs, IdSet(ids[..n]));
    AscendingIsDistinct(ids);
    assert forall j {:trigger ids[j]} | 0 <= j < n :: ids[j] == ids[..n][j];
    forall id
      ensures id in ids[n..] <==> id in ReadableIds(fs) - IdSet(ids[..n])
    {
      if id in ids[n..] {
        var j :| 0 <= j < |ids[n..]| && ids[n..][j] == id;
        assert ids[n + j] == id;
      }
      if id in ReadableIds(fs) - IdSet(ids[..n]) {
        var j :| 0 <= j < |ids| && ids[j] == id;
        assert ids[n..][j - n] == id;
      }
    }
    SortedUnique(ids[n..], ReadableIds(fs) - IdSet(ids[..n]));
  }

  lemma ListingSize(fs: Files)
    ensures |Listing(fs)| <= |fs.pending|
    ensures (forall id | id in fs.pending :: fs.pending[id].Good?) ==> |Listing(fs)| == |fs.pending|
  {
    assert ReadableIds(fs) <= fs.pending.Keys;
    SmallerSet(ReadableIds(fs), fs.pending.Keys);
    if forall id | id in fs.pending :: fs.pending[id].Good? {
      assert ReadableIds(fs) == fs.pending.Keys;
    }
  }

  ghost function Flatten(batches: seq<seq<Id>>): seq<Id> {
    if batches == [] then [] else batches[0] + Flatten(batches[1..])
  }

  /** The batches of repeated receives for one notice, up to and including the
      first empty one. Call number k happens at time clock(k). */
  ghost function DrainBatches(
    fs: Files, l: Ledger, notice: NoticeId, limit: int, clock: nat -> int, k: nat): seq<seq<Id>>
    decreases |Listing(fs)|
  {
    var ids := ReceivedIds(fs, l, Some(notice), limit);
    if ids == [] then [ids]
    else
      ListingAfterClaim(fs, |ids|);
      var after := ReceivedLedger(l, Some(notice), false, clock(k));
      [ids] + DrainBatches(ClaimSet(fs, IdSet(ids)), after, notice, limit, clock, k + 1)
  }

  /** m is n / size, rounded up. */
  predicate IsCeil(m: nat, n: nat, size: nat) {
    n <= m * size && (m > 0 ==> (m - 1) * size < n)
  }

  lemma CeilNext(m: nat, n: nat, size: nat)
    requires 0 < size < n && IsCeil(m, n - size, size)
    ensures IsCeil(m + 1, n, size)
  {
    assert (m + 1) * size == m * size + size;
    assert m > 0 ==> m * size == (m - 1) * size + size;
  }

  lemma NotNegative(a: nat, b: nat)
    ensures a * b >= 0
  {
  }

  lemma CeilZero(m: nat, size: nat)
    requires size > 0 && IsCeil(m, 0, size)
    ensures m == 0
  {
    NotNegative(if m > 0 then m - 1 else 0, size);
  }

  /** What draining yields: ceil(n / limit) full or partial batches and then an
      empty one, together the listed items in order. */
  ghost predicate Drains(batches: seq<seq<Id>>, listed: seq<Id>, limit: nat) {
    && batches != []
    && IsCeil(|batches| - 1, |listed|, limit)
    && Flatten(batches) == listed
    && (forall i | 0 <= i < |batches| - 1 :: 0 < |batches[i]| <= limit)
    && batches[|batches| - 1] == []
  }

  lemma DrainsMore(ids: seq<Id>, rest: seq<seq<Id>>, listed: seq<Id>, limit: nat)
    requires 0 < limit && listed != [] && ids == (if |listed| <= limit then listed else listed[..limit])
    requires Drains(rest, listed[|ids|..], limit)
    ensures Drains([ids] + rest, listed, limit)
  {
    assert ([ids] + rest)[1..] == rest;
    assert ids + listed[|ids|..] == listed;
    if |listed| <= limit {
      CeilZero(|rest| - 1, limit);
    } else {
      CeilNext(|rest| - 1, |listed|, limit);
    }
  }

  /** Draining n items with the current notice takes ceil(n / limit) + 1 calls,
      and the batches are the pending items in id order without repeats. */
  lemma {:induction false} DrainTheorem(fs: Files, l: Ledger, notice: NoticeId, limit: int, clock: nat -> int, k: nat)
    requires Accepts(l, notice)
    ensures Drains(DrainBatches(fs, l, notice, limit, clock, k), Listing(fs), Limit(limit))
    decreases |Listing(fs)|
  {
    var ids := ReceivedIds(fs, l, Some(notice), limit);
    if ids == [] {
      assert Listing(fs) == [];
      assert Flatten([ids]) == [] + Flatten([ids][1..]);
    } else {
      assert ids == Listing(fs)[..|ids|];
      ListingAfterClaim(fs, |ids|);
      var after := ReceivedLedger(l, Some(notice), false, clock(k));
      DrainTheorem(ClaimSet(fs, IdSet(ids)), after, notice, limit, clock, k + 1);
      var rest := DrainBatches(ClaimSet(fs, IdSet(ids)), after, notice, limit, clock, k + 1);
      DrainsMore(ids, rest, Listing(fs), Limit(limit));
    }
  }

  /** A drain that finds something opens the flight for five minutes: with no
      other step between, a notify of a protocol-2 receiver is taken in by it
      exactly when it comes within that time, and otherwise the host is called. */
  lemma DrainLastsFiveMinutes(
    start: Files, before: Ledger, fs: Files, drained: Ledger, notice: NoticeId, limit: int, now: int,
    cancelAt: nat, items: seq<Item>, ok: bool,
    after: Ledger, ids: seq<Id>, item: Id, later: int, host: Host, r: Notified, handed: Option<NoticeId>)
    requires ReceivesExactly(start, before, fs, drained, Some(notice), limit, now, cancelAt, true, items, ok)
    requires before.id == Some(notice) && before.protocol == 2
    requires before.phase != Received && before.phase != Deferred && Listing(start) != []
    requires SignalExactly(drained, after, ids, item, true, later, host, r, handed)
    requires host.native && host.saves.first
    ensures drained.phase == Receiving && drained.drainUntil == now + 300_000
    ensures later < now + 300_000 ==> handed == None && r == Signalled && after == drained.(notified := ids)
    ensures later >= now + 300_000 ==> handed == Some(Random(host.nonce)) && after.id == handed
  {
  }

  /** The receiver's loop: receive with the same notice until a batch is empty.
      Afterwards the flight is closed. */
  method DrainAll(q: Queue, notice: NoticeId, limit: int, clock: nat -> int) returns (batches: seq<seq<Id>>)
    requires q.Valid() && q.Alone() && Accepts(q.ledger, notice)
    modifies q
    ensures batches == DrainBatches(old(q.files), old(q.ledger), notice, limit, clock, 0)
    ensures Drains(batches, Listing(old(q.files)), Limit(limit))
    ensures q.ledger.phase == Received && q.ledger.id == Some(notice) && Listing(q.files) == []
  {
    DrainTheorem(q.files, q.ledger, notice, limit, clock, 0);
    ghost var all := DrainBatches(q.files, q.ledger, notice, limit, clock, 0);
    batches := [];
    var done := false;
    while !done
      invariant q.Valid() && q.Alone()
      invariant Drained(all, q.files, q.ledger, notice, limit, clock, batches, done)
      decreases !done, |Listing(q.files)|
    {
      ghost var fs, l, skipped := q.files, q.ledger, {};
      ListingSize(fs);
      ghost var listed;
      var items, ok;
      var now, polls := clock(|batches|), |q.files.pending|;
      items, ok, listed, skipped := q.Receive(Some(notice), limit, now, polls, Saves(true, true));
      OldestAreReceived(fs, l, q.files, q.ledger, Some(notice), limit, now, polls, items, ok);
      DrainAdvances(all, fs, l, notice, limit, clock, batches, q.files, q.ledger, items);
      done := items == [];
      batches := batches + [Ids(items)];
    }
  }

  /** How far the loop is: which of all the batches it has received. */
  ghost predicate Drained(
    all: seq<seq<Id>>, fs: Files, l: Ledger, notice: NoticeId, limit: int, clock: nat -> int,
    batches: seq<seq<Id>>, done: bool)
  {
    if done then
      batches == all && l.phase == Received && l.id == Some(notice) && Listing(fs) == []
    else
      Accepts(l, notice) && batches + DrainBatches(fs, l, notice, limit, clock, |batches|) == all
  }

  lemma DrainAdvances(
    all: seq<seq<Id>>, fs: Files, l: Ledger, notice: NoticeId, limit: int, clock: nat -> int,
    batches: seq<seq<Id>>, after: Files, ledger: Ledger, items: seq<Item>)
    requires Drained(all, fs, l, notice, limit, clock, batches, false)
    requires ReceivesOldest(fs, l, after, ledger, Some(notice), limit, clock(|batches|), items)
    ensures Drained(all, after, ledger, notice, limit, clock, batches + [Ids(items)], items == [])
    ensures items != [] ==> |Listing(after)| < |Listing(fs)|
  {
    DrainStep(fs, l, notice, limit, clock, |batches|, after, ledger, items);
    Associative(batches, [Ids(items)], DrainBatches(after, ledger, notice, limit, clock, |batches| + 1));
  }

  lemma Associative<T>(a: seq<T>, b: seq<T>, c: seq<T>)
    ensures a + (b + c) == (a + b) + c
  {
  }

  /** One call of the loop, in terms of the batches still to come. */
  lemma DrainStep(
    fs: Files, l: Ledger, notice: NoticeId, limit: int, clock: nat -> int, k: nat,
    after: Files, ledger: Ledger, items: seq<Item>)
    requires Accepts(l, notice)
    requires ReceivesOldest(fs, l, after, ledger, Some(notice), limit, clock(k), items)
    ensures items == [] ==>
              && DrainBatches(fs, l, notice, limit, clock, k) == [Ids(items)]
              && Listing(after) == []
              && ledger.phase == Received && ledger.id == Some(notice)
    ensures items != [] ==>
              && DrainBatches(fs, l, notice, limit, clock, k)
                 == [Ids(items)] + DrainBatches(after, ledger, notice, limit, clock, k + 1)
              && Accepts(ledger, notice)
              && |Listing(after)| < |Listing(fs)|
  {
    var ids := ReceivedIds(fs, l, Some(notice), limit);
    assert |ids| == |items| && ids == Listing(fs)[..|ids|];
    ListingAfterClaim(fs, |ids|);
  }
}
