/** The queue operations as programs, run among other processes.

    The directory tree of one target is the object's state. Between any two
    operations of a method the other processes may take steps of their own;
    which ones is fixed by `schedule`, so a contract that holds for every
    schedule holds for every interleaving with renames of other processes. */
module Mailbox {
  import opened Order
  import opened MailFiles
  import opened Ledgers

  /** One atomic step of another process. A rename whose source is missing, or
      a publish of an id that exists, changes nothing. */
  datatype Interference =
    | Published(id: Id, file: File)
    | ClaimedBy(id: Id)
    | FinishedBy(id: Id)

  function Disturb(fs: Files, op: Interference): Files {
    match op
    case Published(id, file) => if fs.Lookup(id) == None then fs.Publish(id, file) else fs
    case ClaimedBy(id) => if id in fs.pending then fs.Claim(id) else fs
    case FinishedBy(id) =>
      if id in fs.claimed then fs.FinishClaimed(id)
      else if id in fs.pending then fs.FinishPending(id)
      else fs
  }

  function DisturbAll(fs: Files, ops: seq<Interference>): Files
    decreases |ops|
  {
    if ops == [] then fs else DisturbAll(Disturb(fs, ops[0]), ops[1..])
  }

  /** The next turn of the other processes, and the turns after it. */
  function Turn(fs: Files, schedule: seq<seq<Interference>>): Files {
    if schedule == [] then fs else DisturbAll(fs, schedule[0])
  }

  function Rest(schedule: seq<seq<Interference>>): seq<seq<Interference>> {
    if schedule == [] then [] else schedule[1..]
  }

  function Publishes(ops: seq<Interference>): nat {
    if ops == [] then 0 else (if ops[0].Published? then 1 else 0) + Publishes(ops[1..])
  }

  function AllPublishes(schedule: seq<seq<Interference>>): nat {
    if schedule == [] then 0 else Publishes(schedule[0]) + AllPublishes(schedule[1..])
  }

  /** The ids other processes publish, try to claim and try to finish. */
  datatype Rivals = Rivals(publishes: set<Id>, claims: set<Id>, finishes: set<Id>) {
    predicate Within(r: Rivals) { publishes <= r.publishes && claims <= r.claims && finishes <= r.finishes }
  }

  function RivalsIn(ops: seq<Interference>): Rivals {
    Rivals(set j | 0 <= j < |ops| && ops[j].Published? :: ops[j].id,
           set j | 0 <= j < |ops| && ops[j].ClaimedBy? :: ops[j].id,
           set j | 0 <= j < |ops| && ops[j].FinishedBy? :: ops[j].id)
  }

  function AllRivals(schedule: seq<seq<Interference>>): Rivals {
    if schedule == [] then Rivals({}, {}, {})
    else
      var now, later := RivalsIn(schedule[0]), AllRivals(schedule[1..]);
      Rivals(now.publishes + later.publishes, now.claims + later.claims, now.finishes + later.finishes)
  }

  /** An id that was neither claimed nor done. */
  predicate Unclaimed(fs: Files, id: Id) {
    id !in fs.claimed && id !in fs.done
  }

  /** What a call that tried to claim some ids and has these items may have done
      to an id since `start`. It published and finished nothing, and claimed
      nothing else; and if an id left pending/ and no rival took it, it is among
      the items, or its file is corrupt. */
  predicate Accounted(start: Files, fs: Files, rivals: Rivals, items: seq<Item>, tried: set<Id>, id: Id) {
    && (start.Lookup(id) == None && fs.Lookup(id).Some? ==> id in rivals.publishes)
    && (id in fs.claimed && id !in start.claimed ==> id in rivals.claims || id in tried)
    && (id in fs.done && id !in start.done ==> id in rivals.finishes)
    && (Unclaimed(start, id) && id !in rivals.claims
        && (id in fs.claimed || (id in fs.done && id !in rivals.finishes)) ==>
          id in Ids(items) || fs.Lookup(id) == Some(Corrupt))
  }

  ghost predicate NoneLost(start: Files, fs: Files, rivals: Rivals, items: seq<Item>, tried: set<Id>) {
    forall id :: Accounted(start, fs, rivals, items, tried, id)
  }

  lemma NoneLostTwice(
    a: Files, b: Files, c: Files, all: Rivals, some: Rivals,
    items: seq<Item>, more: seq<Item>, tried: set<Id>, again: set<Id>)
    requires NoneLost(a, b, all, items, tried) && NoneLost(b, c, some, more, again) && some.Within(all)
    requires Forward(b, c) && b.Disjoint() && c.Disjoint()
    ensures NoneLost(a, c, all, items + more, tried + again)
    ensures items == [] && tried == {} ==> NoneLost(a, c, all, more, again)
    ensures more == [] && again == {} ==> NoneLost(a, c, all, items, tried)
  {
    assert Ids(items + more) == Ids(items) + Ids(more);
    assert [] + more == more && items + [] == items && {} + again == again && tried + {} == tried;
    forall id
      ensures Accounted(a, c, all, items + more, tried + again, id)
    {
      assert Accounted(a, b, all, items, tried, id) && Accounted(b, c, some, more, again, id);
      assert b.StageOf(id).Rank() <= c.StageOf(id).Rank();
      assert b.Lookup(id) == Some(Corrupt) ==> c.Lookup(id) == Some(Corrupt);
    }
  }

  /** A call may be said to have tried more than it did. */
  lemma NoneLostMore(start: Files, fs: Files, rivals: Rivals, items: seq<Item>, tried: set<Id>, more: set<Id>)
    requires NoneLost(start, fs, rivals, items, tried) && tried <= more
    ensures NoneLost(start, fs, rivals, items, more)
  {
    forall id
      ensures Accounted(start, fs, rivals, items, more, id)
    {
      assert Accounted(start, fs, rivals, items, tried, id);
    }
  }

  function AlsoFinishing(rivals: Rivals, id: Id): Rivals {
    rivals.(finishes := rivals.finishes + {id})
  }

  /** Finishing one id, or nothing, on top of what rivals did. */
  lemma FinishIsAccounted(start: Files, found: Files, fs: Files, rivals: Rivals, id: Id)
    requires NoneLost(start, found, rivals, [], {}) && found.Disjoint()
    requires fs == found || (id in found.claimed && fs == found.FinishClaimed(id))
                         || (id in found.pending && fs == found.FinishPending(id))
    ensures NoneLost(start, fs, AlsoFinishing(rivals, id), [], {})
  {
    forall x
      ensures Accounted(start, fs, AlsoFinishing(rivals, id), [], {}, x)
    {
      assert Accounted(start, found, rivals, [], {}, x);
      assert fs.Lookup(x) == found.Lookup(x);
    }
  }

  /** Only rivals publish, claim and finish. */
  lemma DisturbTakes(fs: Files, op: Interference, id: Id)
    ensures fs.Lookup(id) == None && Disturb(fs, op).Lookup(id).Some? ==> op.Published? && op.id == id
    ensures id in Disturb(fs, op).claimed && id !in fs.claimed ==> op == ClaimedBy(id)
    ensures id in Disturb(fs, op).done && id !in fs.done ==> op == FinishedBy(id)
  {
  }

  lemma {:induction false} DisturbAllTakes(fs: Files, ops: seq<Interference>, id: Id)
    ensures fs.Lookup(id) == None && DisturbAll(fs, ops).Lookup(id).Some? ==> id in RivalsIn(ops).publishes
    ensures id in DisturbAll(fs, ops).claimed && id !in fs.claimed ==> id in RivalsIn(ops).claims
    ensures id in DisturbAll(fs, ops).done && id !in fs.done ==> id in RivalsIn(ops).finishes
    decreases |ops|
  {
    if ops != [] {
      DisturbTakes(fs, ops[0], id);
      DisturbAllTakes(Disturb(fs, ops[0]), ops[1..], id);
      assert forall j | 0 <= j < |ops| - 1 :: ops[1..][j] == ops[j + 1];
    }
  }

  lemma DisturbIsAccounted(fs: Files, ops: seq<Interference>, rivals: Rivals)
    requires RivalsIn(ops).Within(rivals)
    ensures NoneLost(fs, DisturbAll(fs, ops), rivals, [], {})
  {
    forall id
      ensures Accounted(fs, DisturbAll(fs, ops), rivals, [], {}, id)
    {
      DisturbAllTakes(fs, ops, id);
    }
  }

  lemma NothingIsAccounted(fs: Files, rivals: Rivals)
    ensures NoneLost(fs, fs, rivals, [], {})
  {
  }

  lemma DisturbMoves(fs: Files, op: Interference)
    requires fs.Disjoint()
    ensures Disturb(fs, op).Disjoint() && Forward(fs, Disturb(fs, op))
  {
    match op
    case Published(id, file) => if fs.Lookup(id) == None { PublishAdds(fs, id, file); }
    case ClaimedBy(id) => if id in fs.pending { ClaimMoves(fs, id); }
    case FinishedBy(id) =>
      if id in fs.claimed { FinishClaimedMoves(fs, id); }
      else if id in fs.pending { FinishPendingMoves(fs, id); }
  }

  /** Only a publish adds to pending/, and only one name. */
  lemma DisturbBounded(fs: Files, op: Interference, names: set<Id>)
    ensures |Disturb(fs, op).pending.Keys + names| <= |fs.pending.Keys + names| + (if op.Published? then 1 else 0)
  {
    var before, after := fs.pending.Keys + names, Disturb(fs, op).pending.Keys + names;
    if op.Published? {
      assert after <= before + {op.id};
      SmallerSet(after, before + {op.id});
    } else {
      SmallerSet(after, before);
    }
  }

  lemma {:induction false} DisturbAllBounded(fs: Files, ops: seq<Interference>, names: set<Id>)
    requires fs.Disjoint()
    ensures DisturbAll(fs, ops).Disjoint() && Forward(fs, DisturbAll(fs, ops))
    ensures |DisturbAll(fs, ops).pending.Keys + names| <= |fs.pending.Keys + names| + Publishes(ops)
    decreases |ops|
  {
    if ops != [] {
      DisturbMoves(fs, ops[0]);
      DisturbBounded(fs, ops[0], names);
      DisturbAllBounded(Disturb(fs, ops[0]), ops[1..], names);
      ForwardTransitive(fs, Disturb(fs, ops[0]), DisturbAll(fs, ops));
    }
  }

  /** The ids a listing of pending/ shows: the readable ones, oldest first. */
  ghost function Listing(fs: Files): seq<Id> {
    Sorted(ReadableIds(fs))
  }

  ghost function ReadableIds(fs: Files): set<Id> {
    set id | id in fs.pending && fs.pending[id].Good?
  }

  function Ids(items: seq<Item>): seq<Id> {
    seq(|items|, i requires 0 <= i < |items| => items[i].id)
  }

  /** The item a good file of the given id holds. */
  predicate IsItemOf(fs: Files, item: Item) {
    fs.Lookup(item.id) == Some(Good(item.text))
  }

  lemma LeftPending(a: Files, b: Files, id: Id)
    requires Forward(a, b) && a.Lookup(id).Some? && id !in a.pending
    ensures id !in b.pending
  {
    assert a.StageOf(id).Rank() <= b.StageOf(id).Rank();
  }

  lemma ReadableBefore(a: Files, b: Files, id: Id)
    requires Forward(a, b) && a.Lookup(id).Some? && b.Readable(id)
    ensures a.Readable(id)
  {
    assert a.StageOf(id).Rank() <= b.StageOf(id).Rank();
  }

  /** Every id in the list has a file; the first n have left pending/. */
  ghost predicate Passed(fs: Files, ids: seq<Id>, n: nat) {
    && (forall j | 0 <= j < |ids| :: fs.Lookup(ids[j]).Some?)
    && (forall j | 0 <= j < |ids| && j < n :: ids[j] !in fs.pending)
  }

  lemma PassedStays(a: Files, b: Files, ids: seq<Id>, n: nat)
    requires Forward(a, b) && Passed(a, ids, n)
    ensures Passed(b, ids, n)
  {
    forall j | 0 <= j < |ids| && j < n
      ensures ids[j] !in b.pending
    {
      LeftPending(a, b, ids[j]);
    }
  }

  lemma PassedNext(fs: Files, ids: seq<Id>, n: nat)
    requires n < |ids| && Passed(fs, ids, n) && ids[n] !in fs.pending
    ensures Passed(fs, ids, n + 1)
  {
  }

  /** How many of the reads to come fail. */
  function Fails(faults: seq<bool>): nat {
    if faults == [] then 0 else (if faults[0] then 1 else 0) + Fails(faults[1..])
  }

  /** What a listing that has read the first n of its names has collected, and
      which names it could not read. */
  ghost predicate Collected(fs: Files, names: seq<Id>, n: nat, items: seq<Item>, skipped: set<Id>) {
    && n <= |names|
    && (forall j | 0 <= j < |items| :: IsItemOf(fs, items[j]) && items[j].id in names)
    && Ascending(Ids(items))
    && (forall j, k | 0 <= j < |items| && n <= k < |names| :: Less(items[j].id, names[k]))
    && (forall j | 0 <= j < |names| :: fs.Lookup(names[j]).Some?)
    && (forall j | 0 <= j < n && fs.Readable(names[j]) :: names[j] in Ids(items) || names[j] in skipped)
  }

  ghost predicate AllReadable(fs: Files, items: seq<Item>) {
    forall j | 0 <= j < |items| :: fs.Readable(items[j].id)
  }

  lemma CollectNothing(fs: Files, names: seq<Id>)
    requires names == Sorted(fs.pending.Keys)
    ensures Collected(fs, names, 0, [], {})
  {
  }

  lemma CollectedListing(fs: Files, names: seq<Id>, items: seq<Item>)
    requires names == Sorted(fs.pending.Keys) && Collected(fs, names, |names|, items, {}) && AllReadable(fs, items)
    ensures Ids(items) == Listing(fs)
  {
    forall id
      ensures id in Ids(items) <==> id in ReadableIds(fs)
    {
      if id in ReadableIds(fs) { assert id in names; }
    }
    SortedUnique(Ids(items), ReadableIds(fs));
  }

  lemma CollectedStays(a: Files, b: Files, names: seq<Id>, n: nat, items: seq<Item>, skipped: set<Id>)
    requires Forward(a, b) && Collected(a, names, n, items, skipped)
    ensures Collected(b, names, n, items, skipped)
  {
    forall j | 0 <= j < n && b.Readable(names[j])
      ensures names[j] in Ids(items) || names[j] in skipped
    {
      ReadableBefore(a, b, names[j]);
    }
  }

  lemma CollectSkip(fs: Files, names: seq<Id>, n: nat, items: seq<Item>, skipped: set<Id>)
    requires n < |names| && Ascending(names) && Collected(fs, names, n, items, skipped)
    ensures !fs.Readable(names[n]) ==> Collected(fs, names, n + 1, items, skipped)
    ensures Collected(fs, names, n + 1, items, skipped + {names[n]})
  {
  }

  lemma CollectNext(fs: Files, names: seq<Id>, n: nat, items: seq<Item>, skipped: set<Id>, item: Item)
    requires n < |names| && Ascending(names) && Collected(fs, names, n, items, skipped)
    requires item.id == names[n] && IsItemOf(fs, item)
    ensures Collected(fs, names, n + 1, items + [item], skipped)
  {
    assert Ids(items + [item]) == Ids(items) + [item.id];
    forall j | 0 <= j < n + 1 && fs.Readable(names[j])
      ensures names[j] in Ids(items + [item]) || names[j] in skipped
    {
      if j < n {
        assert names[j] in Ids(items) || names[j] in skipped;
      } else {
        assert Ids(items + [item])[|items|] == names[j];
      }
    }
  }

  lemma CollectedWere(start: Files, scanned: Files, fs: Files, names: seq<Id>, items: seq<Item>, skipped: set<Id>)
    requires Forward(start, scanned) && start.Disjoint() && scanned.Disjoint() && names == Sorted(scanned.pending.Keys)
    requires Collected(fs, names, |names|, items, skipped)
    ensures forall i | 0 <= i < |items| :: Unclaimed(start, items[i].id)
  {
    forall i | 0 <= i < |items|
      ensures Unclaimed(start, items[i].id)
    {
      assert items[i].id in scanned.pending;
      UnclaimedBefore(start, scanned, items[i].id);
    }
  }

  lemma CollectedAll(start: Files, scanned: Files, fs: Files, names: seq<Id>, items: seq<Item>, skipped: set<Id>)
    requires Forward(start, scanned) && Forward(scanned, fs) && names == Sorted(scanned.pending.Keys)
    requires Collected(fs, names, |names|, items, skipped)
    ensures forall id | start.Readable(id) && id in fs.pending :: id in Ids(items) || id in skipped
  {
    forall id | start.Readable(id) && id in fs.pending
      ensures id in Ids(items) || id in skipped
    {
      assert start.Lookup(id) == fs.Lookup(id) && scanned.Lookup(id).Some?;
      ReadableBefore(scanned, fs, id);
      assert id in names;
    }
  }

  /** The mailbox after the given pending ids were claimed. */
  ghost function ClaimSet(fs: Files, ids: set<Id>): Files {
    Files(fs.pending - ids, fs.claimed + map id | id in ids && id in fs.pending :: fs.pending[id], fs.done)
  }

  lemma ClaimSetStep(fs: Files, ids: set<Id>, id: Id)
    requires fs.Disjoint() && id in fs.pending && id !in ids
    ensures id in ClaimSet(fs, ids).pending
    ensures ClaimSet(fs, ids).Claim(id) == ClaimSet(fs, ids + {id})
  {
    assert fs.pending - ids - {id} == fs.pending - (ids + {id});
  }

  lemma ClaimSetNothing(fs: Files)
    ensures ClaimSet(fs, {}) == fs
  {
    assert fs.pending - {} == fs.pending;
  }

  /** Claimed bodies: oldest first, genuine, out of pending/, and nobody's when
      the call began. */
  ghost predicate GoodBatch(start: Files, fs: Files, items: seq<Item>) {
    && Ascending(Ids(items))
    && (forall j | 0 <= j < |items| ::
          Unclaimed(start, items[j].id) && items[j].id !in fs.pending && IsItemOf(fs, items[j]))
  }

  lemma GoodBatchEarlier(a: Files, b: Files, fs: Files, items: seq<Item>)
    requires Forward(a, b) && a.Disjoint() && b.Disjoint() && GoodBatch(b, fs, items)
    ensures GoodBatch(a, fs, items)
  {
    forall j | 0 <= j < |items|
      ensures Unclaimed(a, items[j].id)
    {
      UnclaimedBefore(a, b, items[j].id);
    }
  }

  lemma UnclaimedBefore(a: Files, b: Files, id: Id)
    requires Forward(a, b) && a.Disjoint() && b.Disjoint()
    ensures Unclaimed(b, id) ==> Unclaimed(a, id)
  {
    assert a.StageOf(id).Rank() <= b.StageOf(id).Rank();
  }

  /** A batch claimed from the first n of the listed ids. */
  ghost predicate Batched(start: Files, fs: Files, ids: seq<Id>, n: nat, items: seq<Item>) {
    && n <= |ids| && Passed(fs, ids, n)
    && (forall j | 0 <= j < |items| :: items[j].id in ids[..n])
    && GoodBatch(start, fs, items)
    && (forall j, k | 0 <= j < |items| && n <= k < |ids| :: Less(items[j].id, ids[k]))
  }

  /** Exactly these items were claimed, and nothing else happened. */
  ghost predicate Claims(start: Files, fs: Files, items: seq<Item>) {
    fs == ClaimSet(start, IdSet(Ids(items)))
  }

  lemma ClaimsNothing(fs: Files)
    ensures Claims(fs, fs, [])
  {
    ClaimSetNothing(fs);
    assert IdSet(Ids([])) == {};
  }

  /** The first n of a list, or all of it. */
  function First(ids: seq<Id>, n: nat): seq<Id> {
    if |ids| <= n then ids else ids[..n]
  }

  /** Every item is one of the first n listed, and every older listed one has
      left pending/. */
  ghost predicate FromFirst(fs: Files, ids: seq<Id>, n: nat, items: seq<Item>) {
    forall j | 0 <= j < |items| :: items[j].id in First(ids, n) && OlderListedLeft(fs, ids, items[j].id)
  }

  /** After n rounds of the claim loop, of which none came after the one it is
      cancelled at, the items are what it claimed. */
  ghost predicate Rounds(
    start: Files, fs: Files, rivals: Rivals, ids: seq<Id>, n: nat, cancelAt: nat, items: seq<Item>)
  {
    && n <= |ids| && n <= cancelAt && |items| <= n && Ascending(ids)
    && Batched(start, fs, ids, n, items)
    && NoneLost(start, fs, rivals, items, IdSet(Ids(items)))
  }

  /** However the loop ends, it tried no id from round `cancelAt` on. Unless it
      fails it has claimed just the items, and on readable files it fails only in
      the round it is cancelled at. */
  ghost predicate Ended(
    start: Files, fs: Files, rivals: Rivals, ids: seq<Id>, cancelAt: nat, items: seq<Item>, ok: bool)
  {
    && NoneLost(start, fs, rivals, items, IdSet(First(ids, cancelAt)))
    && |items| <= cancelAt && FromFirst(fs, ids, cancelAt, items)
    && GoodBatch(start, fs, items)
    && (ok ==> NoneLost(start, fs, rivals, items, IdSet(Ids(items))))
    && (!ok && AllGood(start, ids) ==> CutShort(fs, ids, cancelAt))
  }

  lemma RoundsEnd(
    start: Files, fs: Files, rivals: Rivals, ids: seq<Id>, n: nat, cancelAt: nat, items: seq<Item>, ok: bool)
    requires Rounds(start, fs, rivals, ids, n, cancelAt, items)
    requires !ok ==> n == cancelAt < |ids|
    ensures Ended(start, fs, rivals, ids, cancelAt, items, ok)
  {
    BatchIsListed(start, fs, ids, n, items);
    TriedFirst(start, fs, rivals, ids, n, cancelAt, items, IdSet(Ids(items)));
  }

  lemma NoRounds(fs: Files, rivals: Rivals, ids: seq<Id>, cancelAt: nat)
    requires Ascending(ids) && Passed(fs, ids, 0)
    ensures Rounds(fs, fs, rivals, ids, 0, cancelAt, [])
    ensures Claims(fs, fs, [])
    ensures fs.Disjoint() && AllReadableIds(fs, ids) ==> Undisturbed(fs, fs, ids, 0, [])
  {
    NothingIsAccounted(fs, rivals);
    ClaimsNothing(fs);
    assert ids[..0] == [] == Ids([]) && IdSet([]) == {};
  }

  lemma TriedFirst(
    start: Files, fs: Files, rivals: Rivals, ids: seq<Id>, n: nat, cancelAt: nat, items: seq<Item>, tried: set<Id>)
    requires n <= |ids| && n <= cancelAt && |items| <= n && Ascending(ids) && Batched(start, fs, ids, n, items)
    requires NoneLost(start, fs, rivals, items, tried) && tried <= IdSet(ids[..n])
    ensures NoneLost(start, fs, rivals, items, IdSet(First(ids, cancelAt)))
    ensures FromFirst(fs, ids, cancelAt, items)
  {
    assert forall x | x in ids[..n] :: x in First(ids, cancelAt) by {
      forall x | x in ids[..n]
        ensures x in First(ids, cancelAt)
      {
        var k :| 0 <= k < n && ids[k] == x;
        assert First(ids, cancelAt)[k] == x;
      }
    }
    NoneLostMore(start, fs, rivals, items, tried, IdSet(First(ids, cancelAt)));
    forall j | 0 <= j < |items|
      ensures items[j].id in First(ids, cancelAt) && OlderListedLeft(fs, ids, items[j].id)
    {
      var k :| 0 <= k < n && ids[k] == items[j].id;
      assert ids[..n][k] == ids[k];
      PassedFewer(fs, ids, n, k);
      OlderLeftAt(fs, ids, k);
    }
  }

  lemma BatchIsListed(start: Files, fs: Files, ids: seq<Id>, n: nat, items: seq<Item>)
    requires Batched(start, fs, ids, n, items)
    ensures IdSet(Ids(items)) <= IdSet(ids[..n])
  {
  }

  /** The claim loop came to the round it was cancelled at. */
  ghost predicate CutShort(fs: Files, ids: seq<Id>, cancelAt: nat) {
    cancelAt < |ids| && Passed(fs, ids, cancelAt)
  }

  ghost predicate AllGood(fs: Files, ids: seq<Id>) {
    forall id | id in ids :: HasGood(fs, id)
  }

  lemma NotAllGood(start: Files, before: Files, fs: Files, ids: seq<Id>, n: nat)
    requires Forward(start, before) && Forward(before, fs) && n < |ids| && fs.Lookup(ids[n]) == Some(Corrupt)
    ensures !AllGood(start, ids)
  {
    assert ids[n] in ids;
  }

  /** One more round: a claim of the next id by a loop begun at `start`. */
  lemma ClaimAdds(
    start: Files, before: Files, fs: Files, rivals: Rivals, mine: Rivals,
    ids: seq<Id>, n: nat, cancelAt: nat, items: seq<Item>, r: Reply<Item>)
    requires n < |ids| && n < cancelAt && Rounds(start, before, rivals, ids, n, cancelAt, items)
    requires mine.Within(rivals)
    requires Forward(start, before) && Forward(before, fs) && start.Disjoint() && before.Disjoint() && fs.Disjoint()
    requires NoneLost(before, fs, mine, Taken(r), Tried(r, ids[n]))
    requires ids[n] !in fs.pending && !r.Empty?
    requires r.Ok? ==> Unclaimed(before, ids[n]) && r.value.id == ids[n] && IsItemOf(fs, r.value)
    requires r.Broken? ==> fs.Lookup(ids[n]) == Some(Corrupt)
    ensures !r.Broken? ==> Rounds(start, fs, rivals, ids, n + 1, cancelAt, items + Taken(r))
    ensures r.Broken? ==> Ended(start, fs, rivals, ids, cancelAt, items + Taken(r), false) && items + Taken(r) == items
  {
    var tried := IdSet(Ids(items)) + Tried(r, ids[n]);
    NoneLostTwice(start, before, fs, rivals, mine, items, Taken(r), IdSet(Ids(items)), Tried(r, ids[n]));
    UnclaimedBefore(start, before, ids[n]);
    ClaimedStays(start, before, fs, ids, n, items);
    IdSetNext(ids, n);
    BatchIsListed(start, fs, ids, n, items);
    if r.Ok? {
      ClaimedNext(start, fs, ids, n, items, r.value);
    } else {
      ClaimedSkip(start, fs, ids, n, items);
      assert items + [] == items;
    }
    if r.Broken? {
      TriedFirst(start, fs, rivals, ids, n + 1, cancelAt, items, tried);
      NotAllGood(start, before, fs, ids, n);
    } else {
      assert tried == IdSet(Ids(items + Taken(r)));
    }
  }

  lemma PassedFewer(fs: Files, ids: seq<Id>, n: nat, k: nat)
    requires Passed(fs, ids, n) && k <= n
    ensures Passed(fs, ids, k)
  {
  }

  lemma IdSetNext(ids: seq<Id>, n: nat)
    requires n < |ids|
    ensures IdSet(ids[..n + 1]) == IdSet(ids[..n]) + {ids[n]}
  {
    assert ids[..n + 1] == ids[..n] + [ids[n]];
  }

  /** What a receive nobody interfered with does, branch by branch. */
  ghost predicate ReceivesExactly(
    start: Files, before: Ledger, fs: Files, after: Ledger,
    notice: Option<NoticeId>, limit: int, now: int, cancelAt: nat, save: bool, items: seq<Item>, ok: bool)
  {
    var named :=
      before.id == notice && before.protocol == 2 && before.phase != Received && before.phase != Deferred;
    var batch := First(Listing(start), if 1 <= limit <= 100 then limit else 20);
    if notice.Some? && (!named || !save) then
      items == [] && fs == start && after == before && (ok <==> !named)
    else
      && Ids(items) == First(batch, cancelAt) && (ok <==> |batch| <= cancelAt)
      && Claims(start, fs, items)
      && after == (if notice == None then before
                   else if Listing(start) == [] then before.(coalescing := true, phase := Received, drainUntil := now)
                   else before.(coalescing := true, phase := Receiving, drainUntil := now + 300_000))
  }

  /** The first n listed ids were claimed and nothing else happened. */
  ghost predicate ClaimedFirst(start: Files, fs: Files, ids: seq<Id>, n: nat, items: seq<Item>) {
    n <= |ids| && Ids(items) == ids[..n] && fs == ClaimSet(start, IdSet(ids[..n]))
  }

  ghost predicate AllReadableIds(fs: Files, ids: seq<Id>) {
    forall j | 0 <= j < |ids| :: fs.Readable(ids[j])
  }

  ghost predicate Undisturbed(start: Files, fs: Files, ids: seq<Id>, n: nat, items: seq<Item>) {
    start.Disjoint() && AllReadableIds(start, ids) && ClaimedFirst(start, fs, ids, n, items)
  }

  lemma ClaimedFirstNext(
    start: Files, before: Files, fs: Files, ids: seq<Id>, n: nat, items: seq<Item>, r: Reply<Item>)
    requires n < |ids| && Ascending(ids) && Undisturbed(start, before, ids, n, items)
    requires fs == (if ids[n] in before.pending then before.Claim(ids[n]) else before)
    requires (before.Readable(ids[n]) <==> r.Ok?) && (r.Ok? ==> r.value.id == ids[n])
    ensures r.Ok? && Undisturbed(start, fs, ids, n + 1, items + Taken(r))
  {
    NotYet(ids, n);
    IdSetNext(ids, n);
    ClaimSetStep(start, IdSet(ids[..n]), ids[n]);
    assert start.Readable(ids[n]);
    OneMore(ids, n, items, r.value);
  }

  /** Without interference the loop claims the first ids, up to the limit and to
      the round it is cancelled at. */
  ghost predicate LoopExactly(
    start: Files, fs: Files, ids: seq<Id>, limit: nat, cancelAt: nat, items: seq<Item>, ok: bool)
  {
    && Claims(start, fs, items)
    && Ids(items) == First(First(ids, limit), cancelAt)
    && (ok <==> |First(ids, limit)| <= cancelAt)
  }

  lemma LoopAlone(
    start: Files, fs: Files, ids: seq<Id>, limit: nat, cancelAt: nat, i: nat, items: seq<Item>, ok: bool)
    requires Undisturbed(start, fs, ids, i, items) && i <= cancelAt && i <= limit
    requires if ok then i == |ids| || |items| == limit else i == cancelAt && i < |ids| && i < limit
    ensures LoopExactly(start, fs, ids, limit, cancelAt, items, ok)
  {
    assert |Ids(items)| == i;
  }

  lemma NotYet(ids: seq<Id>, n: nat)
    requires n < |ids| && Ascending(ids)
    ensures ids[n] !in IdSet(ids[..n])
  {
    AscendingIsDistinct(ids);
    forall x | x in ids[..n]
      ensures x != ids[n]
    {
      var j :| 0 <= j < n && ids[..n][j] == x;
      assert ids[j] == x;
    }
  }

  lemma OneMore(ids: seq<Id>, n: nat, items: seq<Item>, item: Item)
    requires n < |ids| && Ids(items) == ids[..n] && item.id == ids[n]
    ensures Ids(items + [item]) == ids[..n + 1]
  {
    assert Ids(items + [item]) == Ids(items) + [item.id];
  }

  lemma ClaimedStays(start: Files, a: Files, b: Files, ids: seq<Id>, n: nat, items: seq<Item>)
    requires Forward(a, b) && Batched(start, a, ids, n, items)
    ensures Batched(start, b, ids, n, items)
  {
    PassedStays(a, b, ids, n);
    forall j | 0 <= j < |items|
      ensures items[j].id !in b.pending
    {
      LeftPending(a, b, items[j].id);
    }
  }

  lemma ClaimedNext(start: Files, fs: Files, ids: seq<Id>, n: nat, items: seq<Item>, item: Item)
    requires n < |ids| && Ascending(ids) && Batched(start, fs, ids, n, items)
    requires item.id == ids[n] && item.id !in fs.pending && IsItemOf(fs, item) && Unclaimed(start, item.id)
    ensures Batched(start, fs, ids, n + 1, items + [item])
    ensures Ids(items + [item]) == Ids(items) + [ids[n]]
  {
    PassedNext(fs, ids, n);
    assert Ids(items + [item]) == Ids(items) + [ids[n]];
  }

  lemma ClaimedSkip(start: Files, fs: Files, ids: seq<Id>, n: nat, items: seq<Item>)
    requires n < |ids| && Batched(start, fs, ids, n, items) && ids[n] !in fs.pending
    ensures Batched(start, fs, ids, n + 1, items)
  {
    PassedNext(fs, ids, n);
  }

  ghost function IdSet(ids: seq<Id>): set<Id> { set id | id in ids }

  /** What a receive without interference claims: the oldest readable items. */
  ghost function ReceivedIds(fs: Files, l: Ledger, notice: Option<NoticeId>, limit: int): seq<Id> {
    var ids := Listing(fs);
    if notice.Some? && !Accepts(l, notice.value) then []
    else if |ids| <= Limit(limit) then ids
    else ids[..Limit(limit)]
  }

  lemma ListingIsReadable(fs: Files)
    ensures AllReadableIds(fs, Listing(fs))
  {
    forall j | 0 <= j < |Listing(fs)|
      ensures fs.Readable(Listing(fs)[j])
    {
      assert Listing(fs)[j] in Listing(fs);
    }
  }

  function ReceivedLedger(l: Ledger, notice: Option<NoticeId>, empty: bool, now: int): Ledger {
    if notice.Some? && Accepts(l, notice.value) then Observe(l, empty, now) else l
  }

  /** Everything that was readable at the start has left pending/, save what
      could not be read. */
  ghost predicate Emptied(start: Files, fs: Files, skipped: set<Id>) {
    forall id | start.Readable(id) :: id !in fs.pending || id in skipped
  }

  /** A receive nobody interfered with: which bodies, and what it leaves. */
  ghost predicate ReceivesOldest(
    start: Files, before: Ledger, fs: Files, after: Ledger,
    notice: Option<NoticeId>, limit: int, now: int, items: seq<Item>)
  {
    && Ids(items) == ReceivedIds(start, before, notice, limit)
    && fs == ClaimSet(start, IdSet(Ids(items)))
    && after == ReceivedLedger(before, notice, Listing(start) == [], now)
  }

  /** The batch of a receive: some of the first listed items up to the limit,
      oldest first, of which none was tried from round `cancelAt` on. What the
      call claimed it has; if it does not fail it claimed nothing else, and a
      short batch has tried all that was listed. */
  ghost predicate IsBatch(
    start: Files, fs: Files, rivals: Rivals, listed: seq<Id>, cancelAt: nat, limit: int, items: seq<Item>, ok: bool)
  {
    && NoneLost(start, fs, rivals, items, IdSet(First(listed, cancelAt)))
    && (ok ==> NoneLost(start, fs, rivals, items, IdSet(Ids(items))))
    && ListsGood(start, fs, listed)
    && GoodBatch(start, fs, items) && FromFirst(fs, listed, cancelAt, items)
    && |items| <= Limit(limit) && |items| <= cancelAt
    && (ok && |items| < Limit(limit) ==> |listed| <= cancelAt)
    && (!ok ==> |items| < Limit(limit))
  }

  lemma NoBatch(fs: Files, rivals: Rivals, cancelAt: nat, limit: int)
    ensures IsBatch(fs, fs, rivals, [], cancelAt, limit, [], true)
  {
    NothingIsAccounted(fs, rivals);
    assert IdSet(Ids([])) == IdSet(First([], cancelAt)) == {};
  }

  lemma BatchFails(start: Files, fs: Files, rivals: Rivals, listed: seq<Id>, cancelAt: nat, limit: int)
    requires IsBatch(start, fs, rivals, listed, cancelAt, limit, [], true)
    ensures IsBatch(start, fs, rivals, listed, cancelAt, limit, [], false)
  {
  }

  /** What a receive records of the flight its notice names: a listing that found
      something renews it for five minutes, and an empty listing, or a batch that
      stayed empty, closes it. */
  predicate Records(
    before: Ledger, after: Ledger, notice: Option<NoticeId>, now: int, saves: Saves,
    listed: seq<Id>, items: seq<Item>, ok: bool)
  {
    var closed := before.(coalescing := true, phase := Received, drainUntil := now);
    if notice == None then after == before
    else if !Accepts(before, notice.value) then ok && items == [] && after == before
    else if !saves.first then !ok && items == [] && after == before
    else if listed == [] then ok && items == [] && after == closed
    else if ok && items == [] then saves.second && after == closed
    else after == before.(coalescing := true, phase := Receiving, drainUntil := now + 300_000)
  }

  /** What a claim loop promises of the listing it was given holds since before
      the listing. */
  lemma ClaimedFromListing(
    start: Files, found: Files, fs: Files, all: Rivals, rivals: Rivals,
    listed: seq<Id>, skipped: set<Id>, cancelAt: nat, items: seq<Item>, ok: bool)
    requires Forward(start, found) && Forward(found, fs) && rivals.Within(all)
    requires start.Disjoint() && found.Disjoint() && fs.Disjoint()
    requires NoneLost(start, found, all, [], {})
    requires NoneLost(found, fs, rivals, items, IdSet(First(listed, cancelAt)))
    requires ok ==> NoneLost(found, fs, rivals, items, IdSet(Ids(items)))
    requires GoodBatch(found, fs, items)
    requires ListsGood(start, found, listed) && ListsUnread(start, found, listed, skipped)
    ensures NoneLost(start, fs, all, items, IdSet(First(listed, cancelAt)))
    ensures ok ==> NoneLost(start, fs, all, items, IdSet(Ids(items)))
    ensures GoodBatch(start, fs, items)
    ensures ListsGood(start, fs, listed) && ListsUnread(start, fs, listed, skipped)
    ensures Passed(fs, listed, |listed|) ==> Emptied(start, fs, skipped)
    ensures listed == [] && FromFirst(fs, listed, cancelAt, items) ==> items == []
  {
    if FromFirst(fs, listed, cancelAt, items) && items != [] { assert items[0].id in First(listed, cancelAt); }
    GoodBatchEarlier(start, found, fs, items);
    NoneLostTwice(start, found, fs, all, rivals, [], items, {}, IdSet(First(listed, cancelAt)));
    if ok { NoneLostTwice(start, found, fs, all, rivals, [], items, {}, IdSet(Ids(items))); }
    ListsUnreadLater(start, found, fs, listed, skipped);
    ListsGoodLater(start, found, fs, listed);
    if Passed(fs, listed, |listed|) { LeftForGood(start, found, fs, listed, skipped); }
  }

  /** Without interference the listing has all the batch is taken from, and an
      empty batch was an empty listing. */
  lemma ReceivedExactly(
    start: Files, before: Ledger, fs: Files, after: Ledger,
    notice: Option<NoticeId>, limit: int, now: int, cancelAt: nat, save: bool, items: seq<Item>, ok: bool)
    requires notice.Some? ==> Accepts(before, notice.value)
    requires Claims(start, fs, items)
    requires after == (if save then ReceivedLedger(before, notice, Listing(start) == [], now) else before)
    requires if notice == None || save then
               && Ids(items) == First(First(Listing(start), Limit(limit)), cancelAt)
               && (ok <==> |First(Listing(start), Limit(limit))| <= cancelAt)
             else items == [] && !ok
    ensures ReceivesExactly(start, before, fs, after, notice, limit, now, cancelAt, save, items, ok)
    ensures notice.Some? && ok && items == [] ==> after.phase == Received
  {
    if ok && items == [] { EmptyMeansNone(Listing(start), Limit(limit), cancelAt); }
    if items == [] {
      ClaimSetNothing(start);
      assert IdSet(Ids(items)) == {};
    }
  }

  /** A flight is closed only when nothing readable is left. */
  lemma ClosedIsEmptied(
    start: Files, fs: Files, before: Ledger, after: Ledger, notice: Option<NoticeId>, limit: int, now: int,
    saves: Saves, listed: seq<Id>, skipped: set<Id>, items: seq<Item>, ok: bool)
    requires Records(before, after, notice, now, saves, listed, items, ok)
    requires ok && |items| < Limit(limit) ==> Emptied(start, fs, skipped)
    requires before.phase != Received && after.phase == Received
    ensures Emptied(start, fs, skipped)
  {
  }

  /** A receive that is not cut short. */
  lemma OldestAreReceived(
    start: Files, before: Ledger, fs: Files, after: Ledger,
    notice: Option<NoticeId>, limit: int, now: int, cancelAt: nat, items: seq<Item>, ok: bool)
    requires ReceivesExactly(start, before, fs, after, notice, limit, now, cancelAt, true, items, ok)
    requires |Listing(start)| <= cancelAt
    ensures ok && ReceivesOldest(start, before, fs, after, notice, limit, now, items)
  {
    if notice.Some? && !Accepts(before, notice.value) {
      NothingIsReceived(start, before, notice.value, limit, now);
      assert Ids(items) == [];
    } else {
      AllFirst(Listing(start), Limit(limit), cancelAt);
      assert after == ReceivedLedger(before, notice, Listing(start) == [], now);
    }
  }

  lemma AllFirst(ids: seq<Id>, limit: nat, cancelAt: nat)
    requires |ids| <= cancelAt
    ensures First(First(ids, limit), cancelAt) == First(ids, limit) && |First(ids, limit)| <= cancelAt
  {
  }

  /** A batch that was not cancelled and is empty means nothing was listed. */
  lemma EmptyMeansNone(ids: seq<Id>, limit: nat, cancelAt: nat)
    requires limit > 0 && |First(ids, limit)| <= cancelAt && First(First(ids, limit), cancelAt) == []
    ensures ids == []
  {
  }

  lemma NothingIsReceived(fs: Files, l: Ledger, notice: NoticeId, limit: int, now: int)
    requires !Accepts(l, notice)
    ensures ReceivesOldest(fs, l, fs, l, Some(notice), limit, now, [])
  {
    ClaimSetNothing(fs);
    assert IdSet([]) == {};
  }

  /** Whether the first and the second ledger write of a call succeed. */
  datatype Saves = Saves(first: bool, second: bool)

  /** How the host and the disk behave during one notify: a transport with
      receipts gives an answer, a plain one only succeeds or fails. */
  datatype Host = Host(native: bool, plainOk: bool, answer: Answer, nonce: nat, saves: Saves)

  datatype Notified = Signalled | Missing | Reserved | Refused

  /** Whether a notify of a listed item reaches the host. */
  predicate Submits(l: Ledger, item: Id, compatible: bool, now: int, host: Host) {
    host.native && Decide(l, item, compatible, now) == Submit && host.saves.first
  }

  /** The ledger a notify of a listed item leaves behind. */
  function NotifiedLedger(l: Ledger, ids: seq<Id>, item: Id, compatible: bool, now: int, host: Host): Ledger {
    match Decide(l, item, compatible, now)
    case Absorb => if host.saves.first then l.(notified := ids) else l
    case Known => l
    case InProgress => l
    case Submit =>
      if !Submits(l, item, compatible, now, host) then l
      else
        var reserved := Begin(l, compatible, ids, now, host.nonce);
        if host.answer == AnsInvalid || !host.saves.second then reserved
        else Settle(reserved, compatible, ids, host.answer)
  }

  function NotifyReply(l: Ledger, item: Id, compatible: bool, now: int, host: Host): Notified {
    match Decide(l, item, compatible, now)
    case Absorb => if host.saves.first then Signalled else Refused
    case Known => Signalled
    case InProgress => Reserved
    case Submit =>
      if !host.native then (if host.plainOk then Signalled else Refused)
      else if host.saves.first && host.saves.second && Accepted(host.answer) then Signalled
      else Refused
  }

  /** The reply for an item that is not listed: its file in claimed/, or else in
      done/, answers. */
  predicate FindsExactly(fs: Files, id: Id, r: Notified) {
    if id in fs.claimed then r == if fs.claimed[id].Good? then Signalled else Refused
    else if id in fs.done then r == if fs.done[id].Good? then Signalled else Refused
    else r == Missing
  }

  /** An acknowledgement looks in claimed/ after one turn of the others and in
      pending/ after the next, and finishes what it finds first. */
  ghost predicate AcksExactly(start: Files, schedule: seq<seq<Interference>>, id: Id, fs: Files, acked: bool) {
    var first := Turn(start, schedule);
    var second := Turn(first, Rest(schedule));
    if id in first.claimed then acked && fs == first.FinishClaimed(id)
    else if id in second.pending then acked && fs == second.FinishPending(id)
    else !acked && fs == second
  }

  datatype Reply<+T> = Ok(value: T) | NotFound | Empty | Broken

  /** The mailbox after an acknowledgement nobody interfered with. */
  function Acknowledged(fs: Files, id: Id): Files {
    if id in fs.claimed then fs.FinishClaimed(id)
    else if id in fs.pending then fs.FinishPending(id)
    else fs
  }

  /** The state of a wait: its own deadline has passed, or its caller has ended
      it. */
  datatype Ctx = Live | Expired | Cancelled

  /** What the rounds of a wait find: its state before a poll, its state after
      the poll if that failed, and where the poll notices in its claim loop that
      the wait has ended. */
  datatype Look = Look(before: Ctx, after: Ctx, cancelAt: nat)

  datatype Waited = Got | TimedOut | Interrupted | Failing | StillWaiting

  /** How a wait reports an error: the end of the wait explains any other. */
  function EndOf(c: Ctx, error: Waited): Waited {
    match c
    case Live => error
    case Expired => TimedOut
    case Cancelled => Interrupted
  }

  /** What a signal means to its caller. The host is given an identity only when
      no wake covers the item and no attempt is younger than 30 s, and it is the
      one the ledger keeps; once signalled, the item is covered: notifying it
      again changes nothing for the host, unless it only deferred. */
  ghost predicate SignalMeans(
    before: Ledger, after: Ledger, item: Id, compatible: bool, now: int, host: Host,
    r: Notified, handed: Option<NoticeId>)
  {
    && (handed.Some? ==>
          && host.native && after.id == handed
          && !(compatible && FlightActive(before, now))
          && (Ambiguous(before.phase) ==> before.generatedAt + 30_000 <= now)
          && Decide(before, item, compatible, now) != Known)
    && (r == Signalled && host.native && after.phase != Deferred ==>
          Decide(after, item, compatible, now) == Absorb || Decide(after, item, compatible, now) == Known)
    && (r == Reserved ==> handed == None && Ambiguous(before.phase) && now < before.generatedAt + 30_000)
    && (!host.native && !(compatible && FlightActive(before, now)) && !Receipted(before, item) && r != Reserved ==>
          r == (if host.plainOk then Signalled else Refused) && after == before && handed == None)
    && (handed == None ==> after == before.(notified := after.notified))
    && r != Missing
  }

  /** The item was in the last receipt that needs no further hint. */
  predicate Receipted(l: Ledger, item: Id) {
    (l.phase == Written || (l.phase == Queued && !l.coalescing)) && item in l.notified
  }

  /** A signal branch by branch: an open flight takes the item in, a receipt
      answers for it, a young attempt has it wait, a plain transport only succeeds
      or fails, and any other is handed a notice. */
  ghost predicate SignalExactly(
    before: Ledger, after: Ledger, ids: seq<Id>, item: Id, compatible: bool, now: int, host: Host,
    r: Notified, handed: Option<NoticeId>)
  {
    if compatible && before.protocol == 2 && before.coalescing
       && (before.phase == Queued || (before.phase == Receiving && now < before.drainUntil)) then
      && handed == None
      && if host.saves.first then r == Signalled && after == before.(notified := ids)
         else r == Refused && after == before
    else if Receipted(before, item) then r == Signalled && handed == None && after == before
    else if (before.phase == Submitting || before.phase == Uncertain) && now < before.generatedAt + 30_000 then
      r == Reserved && handed == None && after == before
    else if !host.native then
      r == (if host.plainOk then Signalled else Refused) && handed == None && after == before
    else if !host.saves.first then r == Refused && handed == None && after == before
    else HandsOver(before, after, ids, compatible, now, host, r, handed)
  }

  /** A hand-over reserves the notice, and records what the host answers. */
  ghost predicate HandsOver(
    before: Ledger, after: Ledger, ids: seq<Id>, compatible: bool, now: int, host: Host,
    r: Notified, handed: Option<NoticeId>)
  {
    var unsettled := before.phase == Failed || before.phase == Uncertain || before.phase == Submitting;
    var id := if compatible && before.protocol == 2 && before.id.Some? && unsettled then before.id.value
              else if compatible then Random(host.nonce)
              else Digest(ids);
    var reserved := Ledger(
                      if compatible then 2 else 0, false, Some(id), Submitting, now, before.notified, ids,
                      before.drainUntil);
    && handed == Some(id)
    && (if !host.saves.second then r == Refused && after == reserved
        else match host.answer
          case AnsQueued =>
            && r == Signalled
            && after == reserved.(phase := Queued, coalescing := compatible, notified := ids, attempt := [])
          case AnsWritten => r == Signalled && after == reserved.(phase := Written, notified := ids, attempt := [])
          case AnsDeferred => r == Signalled && after == reserved.(phase := Deferred, attempt := [])
          case AnsFailed => r == Refused && after == reserved.(phase := Failed)
          case AnsUncertain => r == Refused && after == reserved.(phase := Uncertain)
          case AnsInvalid => r == Refused && after == reserved)
  }

  /** What a notify of a listed item does, as the decisions on the ledger give it. */
  ghost predicate Signals(
    before: Ledger, after: Ledger, ids: seq<Id>, item: Id, compatible: bool, now: int, host: Host,
    r: Notified, handed: Option<NoticeId>)
  {
    && after == NotifiedLedger(before, ids, item, compatible, now, host)
    && r == NotifyReply(before, item, compatible, now, host)
    && handed == if Submits(before, item, compatible, now, host) then
                   Some(IdentityFor(before, compatible, ids, host.nonce)) else None
  }

  /** The decisions give just that, and it means what its caller is promised. */
  lemma SignalIsCovered(
    l: Ledger, after: Ledger, ids: seq<Id>, item: Id, compatible: bool, now: int, host: Host,
    r: Notified, handed: Option<NoticeId>)
    requires item in ids
    ensures Signals(l, after, ids, item, compatible, now, host, r, handed) <==>
            SignalExactly(l, after, ids, item, compatible, now, host, r, handed)
    ensures Signals(l, after, ids, item, compatible, now, host, r, handed) ==>
              SignalMeans(l, after, item, compatible, now, host, r, handed)
  {
    if !(compatible && FlightActive(l, now)) && Submits(l, item, compatible, now, host) {
      SubmissionIsExact(l, after, ids, item, compatible, now, host, r, handed);
    }
  }

  lemma SubmissionIsExact(
    l: Ledger, after: Ledger, ids: seq<Id>, item: Id, compatible: bool, now: int, host: Host,
    r: Notified, handed: Option<NoticeId>)
    requires Submits(l, item, compatible, now, host)
    ensures Signals(l, after, ids, item, compatible, now, host, r, handed) <==>
            HandsOver(l, after, ids, compatible, now, host, r, handed)
  {
  }

  /** The item a claim returned, if it returned one. */
  function Taken(r: Reply<Item>): seq<Item> {
    if r.Ok? then [r.value] else []
  }

  /** The id a claim moved, if it moved one that is still claimed. */
  function Tried(r: Reply<Item>, id: Id): set<Id> {
    if r.NotFound? || r.Empty? then {} else {id}
  }

  /** What a claim has taken: the id it renamed, unless a rival finished it
      before it was read. */
  lemma ClaimTakes(found: Files, left: Files, fs: Files, rivals: Rivals, id: Id, r: Reply<Item>)
    requires found.Disjoint() && id in found.pending && left == found.Claim(id)
    requires left.Disjoint() && fs.Disjoint() && Forward(left, fs) && NoneLost(left, fs, rivals, [], {})
    requires r.NotFound? <==> id !in fs.claimed
    requires r.Ok? ==> r.value.id == id
    requires r.Broken? ==> fs.Lookup(id) == Some(Corrupt)
    requires !r.Empty?
    ensures NoneLost(found, fs, rivals, Taken(r), Tried(r, id))
  {
    var items := Taken(r);
    forall x
      ensures Accounted(found, fs, rivals, items, Tried(r, id), x)
    {
      assert Accounted(left, fs, rivals, [], {}, x);
      assert left.Lookup(x) == found.Lookup(x);
      if x == id {
        if r.Ok? { assert Ids(items)[0] == id; }
      }
    }
  }

  /** Every older id on the list has left pending/. */
  ghost predicate OlderListedLeft(fs: Files, ids: seq<Id>, id: Id) {
    forall x | x in ids && Less(x, id) :: x !in fs.pending
  }

  lemma OlderLeftAt(fs: Files, ids: seq<Id>, n: nat)
    requires n < |ids| && Ascending(ids) && Passed(fs, ids, n)
    ensures OlderListedLeft(fs, ids, ids[n])
  {
    forall x | x in ids && Less(x, ids[n])
      ensures x !in fs.pending
    {
      var j :| 0 <= j < |ids| && ids[j] == x;
      if j >= n { NotLater(ids, n, j); }
    }
  }

  /** Nothing later on an ascending list is less. */
  lemma NotLater(ids: seq<Id>, n: nat, j: nat)
    requires n <= j < |ids| && Ascending(ids)
    ensures !Less(ids[j], ids[n])
  {
    if Less(ids[j], ids[n]) {
      if n < j { Transitive(ids[n], ids[j], ids[n]); }
      Irreflexive(ids[n]);
    }
  }

  /** Every id that was pending at the start and is older has left pending/. */
  ghost predicate OlderLeft(start: Files, fs: Files, id: Id) {
    forall x | x in start.pending && Less(x, id) :: x !in fs.pending
  }

  lemma OlderHaveLeft(start: Files, scanned: Files, fs: Files, ids: seq<Id>, id: Id)
    requires Forward(start, scanned) && Forward(scanned, fs) && ids == Sorted(scanned.pending.Keys)
    requires OlderListedLeft(fs, ids, id)
    ensures OlderLeft(start, fs, id)
  {
    forall x | x in start.pending && Less(x, id)
      ensures x !in fs.pending
    {
      if x !in scanned.pending {
        assert start.Lookup(x) == scanned.Lookup(x);
        LeftPending(scanned, fs, x);
      }
    }
  }

  lemma OlderLeftEarlier(start: Files, mid: Files, fs: Files, id: Id)
    requires Forward(start, mid) && Forward(mid, fs) && OlderLeft(mid, fs, id)
    ensures OlderLeft(start, fs, id)
  {
    forall x | x in start.pending && Less(x, id)
      ensures x !in fs.pending
    {
      if x !in mid.pending {
        assert start.Lookup(x) == mid.Lookup(x);
        LeftPending(mid, fs, x);
      }
    }
  }

  /** A take --next nobody interfered with claims the oldest pending item. */
  ghost predicate TakesLeast(start: Files, fs: Files, r: Reply<Item>) {
    if start.pending == map[] then r == Empty && fs == start
    else
      var least := Least(start.pending.Keys);
      && fs == start.Claim(least)
      && !r.Empty? && (r.Ok? <==> start.pending[least].Good?)
      && (r.Ok? ==> r.value.id == least)
  }

  lemma SnapshotPassed(fs: Files, ids: seq<Id>)
    requires ids == Sorted(fs.pending.Keys)
    ensures Passed(fs, ids, 0)
  {
  }

  /** What a snapshot says of the names it was taken of. */
  lemma SnapshotFacts(names: set<Id>, ids: seq<Id>)
    requires ids == Sorted(names)
    ensures ids == [] <==> names == {}
    ensures ids != [] ==> ids[0] == Least(names)
    ensures names + names == names + {} == names
  {
  }

  class Queue {
    var files: Files
    var ledger: Ledger
    var schedule: seq<seq<Interference>>
    var faults: seq<bool>   // which of the listed reads to come fail

    ghost predicate Valid()
      reads this
    {
      files.Disjoint()
    }

    /** No other process acts, and every listed read works. */
    ghost predicate Alone()
      reads this
    {
      schedule == [] && faults == []
    }

    /** The listed reads that failed are no more than the faults used up. */
    twostate predicate Skips(skipped: set<Id>)
      reads this
    {
      && |skipped| + Fails(faults) <= Fails(old(faults))
      && (old(Alone()) ==> Alone())
    }

    constructor (schedule: seq<seq<Interference>>, faults: seq<bool>)
      ensures Valid() && files == EMPTY_FILES && ledger == NO_LEDGER
      ensures this.schedule == schedule && this.faults == faults
    {
      files := EMPTY_FILES;
      ledger := NO_LEDGER;
      this.schedule := schedule;
      this.faults := faults;
    }

    /** How much can still be claimed: what is pending or named, and every
        publish to come. */
    ghost function Supply(names: set<Id>): nat
      reads this
    {
      |files.pending.Keys + names| + AllPublishes(schedule)
    }

    /** What holds between two states of the mailbox, whoever acted. */
    twostate predicate Moved()
      reads this
    {
      && Forward(old(files), files)
      && AllRivals(schedule).Within(AllRivals(old(schedule)))
      && (old(schedule) == [] ==> schedule == [])
    }

    /** Of all that left pending/, a call has nothing but the given items. */
    twostate predicate Takes(items: seq<Item>, tried: set<Id>)
      reads this
    {
      NoneLost(old(files), files, AllRivals(old(schedule)), items, tried)
    }

    /** The other processes take their next steps. */
    method Interfere(ghost names: set<Id>)
      requires Valid()
      modifies this`files, this`schedule
      ensures Valid() && Moved() && Takes([], {}) && Supply(names) <= old(Supply(names))
      ensures files == Turn(old(files), old(schedule)) && schedule == Rest(old(schedule))
    {
      if schedule == [] {
        NothingIsAccounted(files, AllRivals(schedule));
      } else {
        DisturbIsAccounted(files, schedule[0], AllRivals(schedule));
        DisturbAllBounded(files, schedule[0], names);
        files := DisturbAll(files, schedule[0]);
        schedule := schedule[1..];
      }
    }

    /** Publishes a new item. Its id is fresh. */
    method Push(id: Id, text: string)
      requires Valid() && files.Lookup(id) == None
      modifies this`files
      ensures Valid() && files == old(files).Publish(id, Good(text))
      ensures Forward(old(files), files)
    {
      PublishAdds(files, id, Good(text));
      files := files.Publish(id, Good(text));
    }

    /** One rename from pending/ to claimed/. */
    method Rename(id: Id, ghost names: set<Id>) returns (moved: bool)
      requires Valid()
      modifies this`files
      ensures Valid() && Moved() && Supply(names) <= old(Supply(names))
      ensures moved <==> id in old(files).pending
      ensures files == if moved then old(files).Claim(id) else old(files)
    {
      moved := id in files.pending;
      if moved {
        ClaimMoves(files, id);
        SmallerSet(files.Claim(id).pending.Keys + names, files.pending.Keys + names);
        files := files.Claim(id);
      }
    }

    /** Reads the file of an id in claimed/. */
    method ReadClaimed(id: Id) returns (r: Reply<Item>)
      requires Valid()
      ensures r.NotFound? <==> id !in files.claimed
      ensures r.Ok? <==> id in files.claimed && files.claimed[id].Good?
      ensures r.Ok? ==> r.value.id == id && IsItemOf(files, r.value)
      ensures r.Broken? <==> id in files.claimed && files.claimed[id].Corrupt?
    {
      if id !in files.claimed { return NotFound; }
      if files.claimed[id].Good? { return Ok(Item(id, files.claimed[id].text)); }
      return Broken;
    }

    /** Renames an item into claimed/ and reads it. */
    method Claim(id: Id, ghost names: set<Id>) returns (r: Reply<Item>)
      requires Valid()
      modifies this`files, this`schedule
      ensures Valid() && Moved() && Supply(names) <= old(Supply(names))
      ensures id !in files.pending
      ensures !r.Empty?
      ensures r.Ok? ==> Unclaimed(old(files), id) && r.value.id == id && IsItemOf(files, r.value)
      ensures r.Broken? ==> Unclaimed(old(files), id) && files.Lookup(id) == Some(Corrupt)
      ensures Takes(Taken(r), Tried(r, id))
      ensures old(schedule) == [] ==>
                files == (if id in old(files).pending then old(files).Claim(id) else old(files))
                && (old(files).Readable(id) <==> r.Ok?) && (id !in old(files).pending <==> r.NotFound?)
    {
      Interfere(names);
      ghost var found, rivals := files, AllRivals(schedule);
      var renamed := Rename(id, names);
      ForwardTransitive(old(files), found, files);
      if !renamed { return NotFound; }
      UnclaimedBefore(old(files), found, id);
      ghost var left := files;
      Interfere(names);
      ForwardTransitive(old(files), left, files);
      LeftPending(left, files, id);
      r := ReadClaimed(id);
      ClaimTakes(found, left, files, rivals, id, r);
      NoneLostTwice(old(files), found, files, AllRivals(old(schedule)), rivals, [], Taken(r), {}, Tried(r, id));
    }

    /** Claims the given item. */
    method Take(id: Id) returns (r: Reply<Item>)
      requires Valid()
      modifies this`files, this`schedule
      ensures Valid() && Moved()
      ensures id !in files.pending
      ensures r.Ok? ==> Unclaimed(old(files), id) && r.value.id == id && IsItemOf(files, r.value)
      ensures Takes(Taken(r), Tried(r, id))
      ensures old(schedule) == [] ==>
                && (r.Ok? <==> old(files).Readable(id)) && (r.NotFound? <==> id !in old(files).pending)
                && files.pending == old(files).pending - {id} && files.done == old(files).done
                && files.claimed == if id in old(files).pending
                                    then old(files).claimed[id := old(files).pending[id]] else old(files).claimed
    {
      r := Claim(id, {});
    }

    /** One claim of a pass begun at `start`, after the first n were lost. */
    method TryOne(ids: seq<Id>, n: nat, ghost names: set<Id>, ghost start: Files, ghost rivals: Rivals)
      returns (r: Reply<Item>)
      requires Valid() && n < |ids| && Passed(files, ids, n) && Ascending(ids)
      requires start.Disjoint() && Forward(start, files) && AllRivals(schedule).Within(rivals)
      requires NoneLost(start, files, rivals, [], {})
      modifies this`files, this`schedule
      ensures Valid() && Moved() && Forward(start, files) && Supply(names) <= old(Supply(names))
      ensures NoneLost(start, files, rivals, Taken(r), Tried(r, ids[n]))
      ensures !r.Empty? && (r.NotFound? ==> Passed(files, ids, n + 1))
      ensures r.Broken? ==> Unclaimed(start, ids[n]) && files.Lookup(ids[n]) == Some(Corrupt)
      ensures r.Ok? ==> r.value.id == ids[n] && GoodBatch(start, files, [r.value])
      ensures !r.NotFound? ==> OlderListedLeft(files, ids, ids[n])
      ensures old(schedule) == [] && ids[n] in old(files).pending ==>
                files == old(files).Claim(ids[n]) && (r.Ok? <==> old(files).pending[ids[n]].Good?) && !r.NotFound?
    {
      ghost var mine := AllRivals(schedule);
      r := Claim(ids[n], names);
      ForwardTransitive(start, old(files), files);
      UnclaimedBefore(start, old(files), ids[n]);
      NoneLostTwice(start, old(files), files, rivals, mine, [], Taken(r), {}, Tried(r, ids[n]));
      PassedStays(old(files), files, ids, n);
      if r.NotFound? { PassedNext(files, ids, n); } else { OlderLeftAt(files, ids, n); }
    }

    /** One pass of take --next over a snapshot: the first claim that is not
        lost to another consumer decides. `id` is the one it was for. */
    method TryEach(ids: seq<Id>, ghost names: set<Id>) returns (r: Reply<Item>, ghost id: Id)
      requires Valid() && Passed(files, ids, 0) && Ascending(ids)
      modifies this`files, this`schedule
      ensures Valid() && Moved() && Supply(names) <= old(Supply(names))
      ensures Takes(Taken(r), Tried(r, id))
      ensures !r.Empty?
      ensures r.NotFound? ==> Passed(files, ids, |ids|)
      ensures r.Broken? ==> id in ids && Unclaimed(old(files), id) && files.Lookup(id) == Some(Corrupt)
      ensures r.Ok? ==> id == r.value.id && id in ids && GoodBatch(old(files), files, [r.value])
      ensures !r.NotFound? ==> OlderListedLeft(files, ids, id)
      ensures old(schedule) == [] && ids != [] && ids[0] in old(files).pending ==>
                && files == old(files).Claim(ids[0])
                && (r.Ok? <==> old(files).pending[ids[0]].Good?) && !r.NotFound? && id == ids[0]
    {
      r, id := NotFound, "";
      var i := 0;
      while i < |ids|
        invariant Valid() && Moved() && Supply(names) <= old(Supply(names)) && Takes([], {})
        invariant 0 <= i <= |ids| && r == NotFound && Passed(files, ids, i)
        invariant old(schedule) == [] && ids != [] && ids[0] in old(files).pending ==> i == 0 && files == old(files)
      {
        r := TryOne(ids, i, names, old(files), AllRivals(old(schedule)));
        id := ids[i];
        if !r.NotFound? { return; }
        i := i + 1;
      }
    }

    /** Scans pending/. */
    method ScanPending() returns (ids: seq<Id>)
      requires Valid()
      modifies this`files, this`schedule
      ensures Valid() && Moved() && Supply({}) <= old(Supply({})) && Takes([], {})
      ensures ids == Sorted(files.pending.Keys) && Passed(files, ids, 0)
      ensures old(schedule) == [] ==> files == old(files)
    {
      Interfere({});
      ids := Sort(files.pending.Keys);
      SnapshotPassed(files, ids);
    }

    /** One pass: scans pending/ and tries what it saw. A pass that returns
        nothing has seen its whole snapshot leave pending/. */
    method TakePass() returns (r: Reply<Item>, ghost id: Id)
      requires Valid()
      modifies this`files, this`schedule
      ensures Valid() && Moved() && Takes(Taken(r), Tried(r, id))
      ensures r.NotFound? ==> Supply({}) < old(Supply({}))
      ensures r.Empty? ==> files.pending == map[]
      ensures r.Broken? ==> Unclaimed(old(files), id) && files.Lookup(id) == Some(Corrupt)
      ensures r.Ok? ==> id == r.value.id && GoodBatch(old(files), files, [r.value])
      ensures r.Ok? || r.Broken? ==> OlderLeft(old(files), files, id)
      ensures old(schedule) == [] ==> TakesLeast(old(files), files, r) && !r.NotFound?
    {
      id := "";
      var ids := ScanPending();
      ghost var scanned, rivals, names := files, AllRivals(schedule), files.pending.Keys;
      SnapshotFacts(names, ids);
      if ids == [] { return Empty, id; }
      r, id := TryEach(ids, names);
      ForwardTransitive(old(files), scanned, files);
      NoneLostTwice(old(files), scanned, files, AllRivals(old(schedule)), rivals, [], Taken(r), {}, Tried(r, id));
      UnclaimedBefore(old(files), scanned, id);
      if r.NotFound? {
        PassedSnapshot(files.pending.Keys, names, ids);
      } else {
        OlderHaveLeft(old(files), scanned, files, ids, id);
      }
      if r.Ok? { GoodBatchEarlier(old(files), scanned, files, [r.value]); }
    }

    /** Claims the oldest pending item. With finitely many publishes to come the
        loop ends. `id` is the one that decided. */
    method TakeNext() returns (r: Reply<Item>, ghost id: Id)
      requires Valid()
      modifies this`files, this`schedule
      ensures Valid() && Moved() && Takes(Taken(r), Tried(r, id))
      ensures r.Ok? || r.Empty? || r.Broken?
      ensures r.Empty? ==> files.pending == map[]
      ensures r.Broken? ==> Unclaimed(old(files), id) && files.Lookup(id) == Some(Corrupt)
      ensures r.Ok? ==> id == r.value.id && GoodBatch(old(files), files, [r.value])
      ensures r.Ok? || r.Broken? ==> OlderLeft(old(files), files, id)
      ensures old(schedule) == [] ==> TakesLeast(old(files), files, r)
    {
      id := "";
      while true
        invariant Valid() && Moved() && Takes([], {})
        invariant old(schedule) == [] ==> files == old(files)
        decreases Supply({})
      {
        ghost var before, rivals := files, AllRivals(schedule);
        r, id := TakePass();
        ForwardTransitive(old(files), before, files);
        NoneLostTwice(old(files), before, files, AllRivals(old(schedule)), rivals, [], Taken(r), {}, Tried(r, id));
        UnclaimedBefore(old(files), before, id);
        if !r.NotFound? {
          if r.Ok? { GoodBatchEarlier(old(files), before, files, [r.value]); }
          if !r.Empty? { OlderLeftEarlier(old(files), before, files, id); }
          return;
        }
      }
    }

    /** Marks an item done, from claimed/ or straight from pending/. */
    method Ack(id: Id) returns (acked: bool)
      requires Valid()
      modifies this`files, this`schedule
      ensures Valid() && Forward(old(files), files)
      ensures acked ==> id in files.done && id !in old(files).done
      ensures !acked ==> id !in files.pending
      ensures NoneLost(old(files), files, AlsoFinishing(AllRivals(old(schedule)), id), [], {})
      ensures !acked ==> Takes([], {})
      ensures AcksExactly(old(files), old(schedule), id, files, acked)
      ensures old(schedule) == [] ==>
                && schedule == []
                && (acked <==> id in old(files).claimed || id in old(files).pending)
                && files == Acknowledged(old(files), id)
    {
      ghost var all := AllRivals(old(schedule));
      Interfere({});
      ghost var first, rivals := files, AllRivals(schedule);
      if id in files.claimed {
        FinishClaimedMoves(files, id);
        files := files.FinishClaimed(id);
        ForwardTransitive(old(files), first, files);
        FinishIsAccounted(old(files), first, files, all, id);
        NotDoneBefore(old(files), first, id);
        return true;
      }
      Interfere({});
      ghost var second := files;
      ForwardTransitive(old(files), first, second);
      NoneLostTwice(old(files), first, second, all, rivals, [], [], {}, {});
      if id in files.pending {
        FinishPendingMoves(files, id);
        files := files.FinishPending(id);
        ForwardTransitive(old(files), second, files);
        FinishIsAccounted(old(files), second, files, all, id);
        NotDoneBefore(old(files), second, id);
        return true;
      }
      FinishIsAccounted(old(files), second, files, all, id);
      return false;
    }

    /** Whether the next listed read fails. */
    method NextFault() returns (fails: bool)
      modifies this`faults
      ensures (if fails then 1 else 0) + Fails(faults) == Fails(old(faults))
      ensures old(faults) == [] ==> faults == []
    {
      if faults == [] { return false; }
      fails := faults[0];
      faults := faults[1..];
    }

    /** Reads one listed file, which may be gone by now or fail to be read. */
    method ReadListed(names: seq<Id>, n: nat, items: seq<Item>, ghost skipped: set<Id>)
      returns (more: seq<Item>, ghost missed: set<Id>)
      requires Valid() && n < |names| && Ascending(names) && Collected(files, names, n, items, skipped)
      modifies this`files, this`schedule, this`faults
      ensures Valid() && Moved() && Takes([], {}) && Collected(files, names, n + 1, more, missed)
      ensures |missed| + Fails(faults) <= |skipped| + Fails(old(faults))
      ensures old(Alone()) ==>
                Alone() && missed == skipped && files == old(files) && (AllReadable(files, items) ==>
                  AllReadable(files, more))
    {
      Interfere({});
      CollectedStays(old(files), files, names, n, items, skipped);
      CollectSkip(files, names, n, items, skipped);
      more, missed := items, skipped;
      var fails := NextFault();
      if fails {
        missed := skipped + {names[n]};
      } else if names[n] in files.pending && files.pending[names[n]].Good? {
        var item := Item(names[n], files.pending[names[n]].text);
        CollectNext(files, names, n, items, skipped, item);
        more := items + [item];
      }
    }

    /** The readable items of pending/, oldest first. An item claimed by
        another process between the scan and the read is skipped, and so is one
        whose read fails. */
    method ListPending() returns (items: seq<Item>, ghost skipped: set<Id>)
      requires Valid()
      modifies this`files, this`schedule, this`faults
      ensures Valid() && Moved() && Takes([], {}) && Skips(skipped)
      ensures Ascending(Ids(items))
      ensures forall i | 0 <= i < |items| :: IsItemOf(files, items[i]) && Unclaimed(old(files), items[i].id)
      ensures ListsUnread(old(files), files, Ids(items), skipped)
      ensures old(Alone()) ==> files == old(files) && Ids(items) == Listing(files)
    {
      Interfere({});
      ghost var scanned := files;
      var names := Sort(files.pending.Keys);
      CollectNothing(files, names);
      items, skipped := [], {};
      var i := 0;
      while i < |names|
        invariant Valid() && Moved() && Takes([], {}) && Forward(scanned, files) && Skips(skipped)
        invariant 0 <= i <= |names| && Collected(files, names, i, items, skipped)
        invariant old(Alone()) ==> skipped == {} && files == old(files) && AllReadable(files, items)
      {
        ghost var before, rivals := files, AllRivals(schedule);
        items, skipped := ReadListed(names, i, items, skipped);
        NoneLostTwice(old(files), before, files, AllRivals(old(schedule)), rivals, [], [], {}, {});
        ForwardTransitive(old(files), before, files);
        ForwardTransitive(scanned, before, files);
        i := i + 1;
      }
      CollectedAll(old(files), scanned, files, names, items, skipped);
      CollectedWere(old(files), scanned, files, names, items, skipped);
      if old(Alone()) {
        CollectedListing(files, names, items);
      }
    }

    /** One round of the claim loop of receive, for a batch begun at `start`. */
    method ClaimOne(
      ids: seq<Id>, n: nat, items: seq<Item>, ghost cancelAt: nat, ghost start: Files, ghost rivals: Rivals)
      returns (more: seq<Item>, ok: bool)
      requires Valid() && n < |ids| && n < cancelAt && Rounds(start, files, rivals, ids, n, cancelAt, items)
      requires start.Disjoint() && Forward(start, files) && AllRivals(schedule).Within(rivals)
      modifies this`files, this`schedule
      ensures Valid() && Moved() && Forward(start, files)
      ensures if ok then Rounds(start, files, rivals, ids, n + 1, cancelAt, more)
              else Ended(start, files, rivals, ids, cancelAt, more, false)
      ensures |more| <= |items| + 1 && (!ok ==> more == items)
      ensures old(schedule) == [] && Undisturbed(start, old(files), ids, n, items) ==>
                ok && Undisturbed(start, files, ids, n + 1, more)
    {
      ghost var quiet := schedule == [] && Undisturbed(start, files, ids, n, items);
      ghost var mine := AllRivals(schedule);
      var r := Claim(ids[n], {});
      ForwardTransitive(start, old(files), files);
      ClaimAdds(start, old(files), files, rivals, mine, ids, n, cancelAt, items, r);
      if quiet { ClaimedFirstNext(start, old(files), files, ids, n, items, r); }
      return items + Taken(r), !r.Broken?;
    }

    /** The claim loop of receive: claims listed items until the batch is full
        or the caller is cancelled before round `cancelAt`. */
    method ClaimListed(ids: seq<Id>, limit: nat, cancelAt: nat) returns (items: seq<Item>, ok: bool)
      requires Valid() && Ascending(ids) && Passed(files, ids, 0) && limit >= 1
      modifies this`files, this`schedule
      ensures Valid() && Moved() && Ended(old(files), files, AllRivals(old(schedule)), ids, cancelAt, items, ok)
      ensures |items| <= limit && (!ok ==> |items| < limit)
      ensures ok && |items| < limit ==> Passed(files, ids, |ids|) && |ids| <= cancelAt
      ensures old(schedule) == [] && AllReadableIds(old(files), ids) ==>
                LoopExactly(old(files), files, ids, limit, cancelAt, items, ok)
    {
      items, ok := [], true;
      var i := 0;
      ghost var quiet, rivals := schedule == [] && AllReadableIds(files, ids), AllRivals(schedule);
      NoRounds(files, rivals, ids, cancelAt);
      while i < |ids| && |items| < limit
        invariant Valid() && Moved() && ok && |items| <= limit
        invariant Rounds(old(files), files, rivals, ids, i, cancelAt, items)
        invariant quiet ==> schedule == [] && Undisturbed(old(files), files, ids, i, items)
      {
        if i >= cancelAt {
          ok := false;
          RoundsEnd(old(files), files, rivals, ids, i, cancelAt, items, ok);
          if quiet { LoopAlone(old(files), files, ids, limit, cancelAt, i, items, ok); }
          return;
        }
        items, ok := ClaimOne(ids, i, items, cancelAt, old(files), rivals);
        if !ok { return; }
        i := i + 1;
      }
      RoundsEnd(old(files), files, rivals, ids, i, cancelAt, items, ok);
      if quiet { LoopAlone(old(files), files, ids, limit, cancelAt, i, items, ok); }
    }

    /** Lists pending/. With a notice, the listing decides what is recorded of
        the flight, unless that write fails. */
    method ListAndRecord(notice: Option<NoticeId>, now: int, save: bool)
      returns (ids: seq<Id>, ok: bool, ghost skipped: set<Id>)
      requires Valid() && (notice.Some? ==> Accepts(ledger, notice.value))
      modifies this
      ensures Valid() && Moved() && Takes([], {}) && Skips(skipped)
      ensures Ascending(ids) && Passed(files, ids, 0) && AllGood(files, ids)
      ensures ListsGood(old(files), files, ids) && ListsUnread(old(files), files, ids, skipped)
      ensures ok <==> notice == None || save
      ensures ledger == (if save then ReceivedLedger(old(ledger), notice, ids == [], now) else old(ledger))
      ensures old(Alone()) ==> files == old(files) && ids == Listing(files) && AllReadableIds(files, ids)
    {
      var pending;
      pending, skipped := ListPending();
      ids := Ids(pending);
      PassedNothing(files, pending);
      ListedAreGood(old(files), files, pending);
      ListingIsReadable(files);
      if notice.Some? {
        if !save { return ids, false, skipped; }
        ledger := Observe(ledger, pending == [], now);
      }
      ok := true;
    }

    /** Claims a batch of what it listed and recorded. */
    method ListAndClaim(notice: Option<NoticeId>, limit: int, now: int, cancelAt: nat, save: bool)
      returns (items: seq<Item>, ok: bool, ghost listed: seq<Id>, ghost skipped: set<Id>)
      requires Valid() && (notice.Some? ==> Accepts(ledger, notice.value))
      modifies this
      ensures Valid() && Moved() && Skips(skipped) && ListsUnread(old(files), files, listed, skipped)
      ensures IsBatch(old(files), files, AllRivals(old(schedule)), listed, cancelAt, limit, items, ok)
      ensures ledger == (if save then ReceivedLedger(old(ledger), notice, listed == [], now) else old(ledger))
      ensures notice.Some? && !save ==> !ok && items == []
      ensures !ok ==> (notice.Some? && !save) || CutShort(files, listed, cancelAt)
      ensures ok && |items| < Limit(limit) ==> Emptied(old(files), files, skipped)
      ensures listed == [] ==> items == [] && (ok || (notice.Some? && !save))
      ensures old(Alone()) ==>
                && Claims(old(files), files, items) && listed == Listing(old(files))
                && (notice == None || save ==>
                      && Ids(items) == First(First(listed, Limit(limit)), cancelAt)
                      && (ok <==> |First(listed, Limit(limit))| <= cancelAt))
    {
      var ids;
      ids, ok, skipped := ListAndRecord(notice, now, save);
      listed := ids;
      ghost var found, rivals := files, AllRivals(schedule);
      if !ok {
        ClaimsNothing(files);
        NoneLostMore(old(files), files, AllRivals(old(schedule)), [], {}, IdSet(First(listed, cancelAt)));
        return [], false, listed, skipped;
      }
      items, ok := ClaimListed(ids, Limit(limit), cancelAt);
      ForwardTransitive(old(files), found, files);
      ClaimedFromListing(
        old(files), found, files, AllRivals(old(schedule)), rivals, listed, skipped, cancelAt, items, ok);
    }

    /** Claims a batch of bodies. A notice must name the current flight; an
        empty batch for it closes the flight. */
    method Receive(notice: Option<NoticeId>, limit: int, now: int, cancelAt: nat, saves: Saves)
      returns (items: seq<Item>, ok: bool, ghost listed: seq<Id>, ghost skipped: set<Id>)
      requires Valid()
      modifies this
      ensures Valid() && Moved() && Skips(skipped)
      ensures IsBatch(old(files), files, AllRivals(old(schedule)), listed, cancelAt, limit, items, ok)
      ensures Records(old(ledger), ledger, notice, now, saves, listed, items, ok)
      ensures notice.Some? && !Accepts(old(ledger), notice.value) ==> files == old(files)
      ensures notice == None || Accepts(old(ledger), notice.value) ==>
                && ListsUnread(old(files), files, listed, skipped)
                && (ok && |items| < Limit(limit) ==> Emptied(old(files), files, skipped))
      ensures !ok ==>
                || (notice.Some? && (!saves.first || (items == [] && !saves.second)))
                || CutShort(files, listed, cancelAt)
      ensures old(Alone()) ==>
                ReceivesExactly(
                  old(files), old(ledger), files, ledger, notice, limit, now, cancelAt, saves.first, items, ok)
    {
      listed := [];
      if notice.Some? && !Accepts(ledger, notice.value) {
        ClaimsNothing(files);
        NoBatch(files, AllRivals(schedule), cancelAt, limit);
        return [], true, [], {};
      }
      items, ok, listed, skipped := ListAndClaim(notice, limit, now, cancelAt, saves.first);
      if old(Alone()) {
        ReceivedExactly(
          old(files), old(ledger), files, ledger, notice, limit, now, cancelAt, saves.first, items, ok);
      }
      if ok && notice.Some? && items == [] && ledger.phase != Received {
        BatchFails(old(files), files, AllRivals(old(schedule)), listed, cancelAt, limit);
        if !saves.second { ok := false; return; }
        ledger := Close(ledger, now);
      }
    }

    /** Whether a directory holds a readable item of this id. */
    method Probe(dir: map<Id, File>, id: Id) returns (r: Reply<()>)
      ensures r.Ok? <==> id in dir && dir[id].Good?
      ensures r.NotFound? <==> id !in dir
      ensures !r.Empty?
    {
      if id !in dir { return NotFound; }
      if dir[id].Good? { return Ok(()); }
      return Broken;
    }

    /** Looks for an item that is not listed as pending in claimed/, then in
        done/. Items only move that way, so the search cannot miss one. */
    method Search(id: Id, ghost start: Files, ghost skipped: bool) returns (r: Notified)
      requires Valid() && Forward(start, files) && start.Disjoint()
      requires start.Readable(id) && !skipped ==> id !in files.pending
      modifies this`files, this`schedule
      ensures Valid() && Moved() && Takes([], {}) && Forward(start, files)
      ensures r == Signalled ==> id in files.claimed || id in files.done
      ensures HasGood(start, id) && !skipped ==> r == Signalled
      ensures r != Reserved
      ensures old(schedule) == [] ==> files == old(files) && FindsExactly(files, id, r)
    {
      Interfere({});
      ForwardTransitive(start, old(files), files);
      if !skipped { GoodPastPending(start, old(files), files, id); }
      var inClaimed := Probe(files.claimed, id);
      if !inClaimed.NotFound? {
        return if inClaimed.Ok? then Signalled else Refused;
      }
      ghost var second, rivals := files, AllRivals(schedule);
      Interfere({});
      ForwardTransitive(old(files), second, files);
      ForwardTransitive(start, second, files);
      NoneLostTwice(old(files), second, files, AllRivals(old(schedule)), rivals, [], [], {}, {});
      if !skipped { GoodPastClaimed(start, second, files, id); }
      var inDone := Probe(files.done, id);
      return if inDone.Ok? then Signalled else if inDone.NotFound? then Missing else Refused;
    }

    /** Calls the host for a reserved notice and records its answer. */
    method Submit(ids: seq<Id>, compatible: bool, host: Host) returns (r: Notified)
      requires ledger.phase == Submitting
      modifies this`ledger
      ensures ledger == if host.answer == AnsInvalid || !host.saves.second then old(ledger)
                        else Settle(old(ledger), compatible, ids, host.answer)
      ensures r == if host.saves.second && Accepted(host.answer) then Signalled else Refused
    {
      if host.answer == AnsInvalid { return Refused; }
      var settled := ledger.(phase := PhaseOf(host.answer));
      if Accepted(host.answer) {
        settled := settled.(coalescing := compatible && host.answer == AnsQueued, attempt := []);
        if host.answer != AnsDeferred { settled := settled.(notified := ids); }
      }
      if !host.saves.second { return Refused; }
      ledger := settled;
      return if Accepted(host.answer) then Signalled else Refused;
    }

    /** Signals a listed item, unless a flight or an earlier receipt covers it
        or an ambiguous attempt is still reserved. */
    method SignalListed(item: Id, ids: seq<Id>, compatible: bool, now: int, host: Host)
      returns (r: Notified, handed: Option<NoticeId>)
      requires item in ids
      modifies this`ledger
      ensures Signals(old(ledger), ledger, ids, item, compatible, now, host, r, handed)
    {
      handed := None;
      if compatible && FlightActive(ledger, now) {
        if !host.saves.first { return Refused, None; }
        ledger := ledger.(notified := ids);
        return Signalled, None;
      }
      if (ledger.phase == Written || (ledger.phase == Queued && !ledger.coalescing)) && item in ledger.notified {
        return Signalled, None;
      }
      if Ambiguous(ledger.phase) && now < ledger.generatedAt + UNCERTAIN_MS {
        return Reserved, None;
      }
      if !host.native {
        return if host.plainOk then Signalled else Refused, None;
      }
      var reserved := Begin(ledger, compatible, ids, now, host.nonce);
      if !host.saves.first { return Refused, None; }
      ledger := reserved;
      handed := reserved.id;
      r := Submit(ids, compatible, host);
    }

    /** Signals that the given item is unread. `handed` is the identity the
        host was given, if it was called. */
    method NotifyPending(item: Id, address: Option<int>, now: int, host: Host)
      returns (r: Notified, handed: Option<NoticeId>, ghost listed: seq<Id>, ghost skipped: set<Id>)
      requires Valid()
      modifies this
      ensures Valid() && Moved() && Takes([], {}) && Skips(skipped)
      ensures ListsUnread(old(files), files, listed, skipped) && ListsGood(old(files), files, listed)
      ensures item in listed ==>
                && Signals(old(ledger), ledger, listed, item, address == Some(2), now, host, r, handed)
                && SignalExactly(old(ledger), ledger, listed, item, address == Some(2), now, host, r, handed)
                && SignalMeans(old(ledger), ledger, item, address == Some(2), now, host, r, handed)
      ensures item !in listed ==> ledger == old(ledger) && handed == None
      ensures item !in listed && r == Signalled ==> item in files.claimed || item in files.done
      ensures item !in listed && HasGood(old(files), item) && item !in skipped ==> r == Signalled
      ensures HasGood(old(files), item) && item !in skipped ==> r != Missing
      ensures old(Alone()) ==>
                && files == old(files) && listed == Listing(files)
                && (item !in listed ==> FindsExactly(files, item, r))
    {
      var pending;
      pending, skipped := ListPending();
      listed := Ids(pending);
      var ids := Ids(pending);
      if item in ids {
        r, handed := SignalListed(item, ids, address == Some(WAKE_PROTOCOL), now, host);
        SignalIsCovered(old(ledger), ledger, ids, item, address == Some(2), now, host, r, handed);
      } else {
        ghost var mid, rivals := files, AllRivals(schedule);
        handed := None;
        r := Search(item, old(files), item in skipped);
        ListsUnreadLater(old(files), mid, files, listed, skipped);
        NoneLostTwice(old(files), mid, files, AllRivals(old(schedule)), rivals, [], [], {}, {});
      }
    }

    /** Stores the body, then signals. Whatever the signal does, the body stays. */
    method PushAndNotify(id: Id, text: string, address: Option<int>, now: int, host: Host)
      returns (r: Notified, handed: Option<NoticeId>, ghost listed: seq<Id>, ghost skipped: set<Id>)
      requires Valid() && files.Lookup(id) == None
      modifies this
      ensures Valid() && Forward(old(files), files) && Skips(skipped)
      ensures NoneLost(old(files).Publish(id, Good(text)), files, AllRivals(old(schedule)), [], {})
      ensures files.Lookup(id) == Some(Good(text)) && (id !in skipped ==> r != Missing)
      ensures ListsUnread(old(files).Publish(id, Good(text)), files, listed, skipped)
      ensures ListsGood(old(files), files, listed)
      ensures id in listed ==>
                && Signals(old(ledger), ledger, listed, id, address == Some(2), now, host, r, handed)
                && SignalExactly(old(ledger), ledger, listed, id, address == Some(2), now, host, r, handed)
                && SignalMeans(old(ledger), ledger, id, address == Some(2), now, host, r, handed)
      ensures id !in listed ==> ledger == old(ledger) && handed == None && (id !in skipped ==> r == Signalled)
      ensures old(Alone()) ==> files == old(files).Publish(id, Good(text))
    {
      Push(id, text);
      ghost var stored := files;
      assert HasGood(files, id);
      r, handed, listed, skipped := NotifyPending(id, address, now, host);
      ForwardTransitive(old(files), stored, files);
      assert files.Lookup(id) == stored.Lookup(id);
    }

    /** Claims for a hook: with any body in hand an error is dropped, never the
        bodies. */
    method ClaimUpTo(max: int, now: int, cancelAt: nat) returns (items: seq<Item>, ok: bool, ghost listed: seq<Id>)
      requires Valid()
      modifies this
      ensures Valid() && Moved() && Takes(items, IdSet(First(listed, cancelAt))) && ledger == old(ledger)
      ensures ListsGood(old(files), files, listed)
      ensures GoodBatch(old(files), files, items) && FromFirst(files, listed, cancelAt, items)
      ensures !ok ==> items == [] && CutShort(files, listed, cancelAt)
      ensures ok && items == [] ==> |listed| <= cancelAt
      ensures |items| <= Limit(if max <= 0 then 5 else max) && |items| <= cancelAt
      ensures old(Alone()) ==>
                var batch := First(Listing(old(files)), if max <= 0 then 5 else if max <= 100 then max else 20);
                && Claims(old(files), files, items)
                && Ids(items) == First(batch, cancelAt)
                && (ok <==> items != [] || batch == [])
    {
      ghost var skipped;
      items, ok, listed, skipped := Receive(None, if max <= 0 then 5 else max, now, cancelAt, Saves(true, true));
      if items != [] { ok := true; }
    }

    /** One poll of a wait that began at `start`: a generic receive, some time
        after the last. */
    method Poll(limit: int, now: int, cancelAt: nat, ghost start: Files, ghost rivals: Rivals)
      returns (items: seq<Item>, ok: bool, ghost listed: seq<Id>)
      requires Valid() && start.Disjoint() && Forward(start, files)
      requires AllRivals(schedule).Within(rivals) && NoneLost(start, files, rivals, [], {})
      modifies this
      ensures Valid() && Moved() && Forward(start, files) && ledger == old(ledger)
      ensures |items| <= Limit(limit) && (!ok ==> |items| < Limit(limit)) && |items| <= cancelAt
      ensures GoodBatch(start, files, items) && FromFirst(files, listed, cancelAt, items)
      ensures ListsGood(start, files, listed) && (!ok ==> CutShort(files, listed, cancelAt))
      ensures NoneLost(start, files, rivals, items, IdSet(First(listed, cancelAt)))
      ensures ok ==> NoneLost(start, files, rivals, items, IdSet(Ids(items)))
      ensures old(Alone()) ==>
                && Alone() && Claims(old(files), files, items)
                && Ids(items) == First(First(Listing(old(files)), Limit(limit)), cancelAt)
                && (ok <==> |First(Listing(old(files)), Limit(limit))| <= cancelAt)
    {
      ghost var all, skipped := AllRivals(schedule), {};
      Interfere({});
      ghost var before, some := files, AllRivals(schedule);
      NoneLostTwice(start, old(files), before, rivals, all, [], [], {}, {});
      ForwardTransitive(start, old(files), before);
      items, ok, listed, skipped := Receive(None, limit, now, cancelAt, Saves(true, true));
      ForwardTransitive(start, before, files);
      ForwardTransitive(old(files), before, files);
      GoodBatchEarlier(start, before, files, items);
      ListsGoodEarlier(start, before, files, listed);
      NoneLostTwice(start, before, files, rivals, some, [], items, {}, IdSet(First(listed, cancelAt)));
      if ok { NoneLostTwice(start, before, files, rivals, some, [], items, {}, IdSet(Ids(items))); }
    }

    /** One round of a wait that began at `start`: unless the wait has ended,
        one poll. Without bodies, error or end the wait goes on. */
    method WaitRound(limit: int, look: Look, now: int, ghost start: Files, ghost rivals: Rivals)
      returns (items: seq<Item>, r: Waited, ghost listed: seq<Id>)
      requires Valid() && start.Disjoint() && Forward(start, files)
      requires AllRivals(schedule).Within(rivals) && NoneLost(start, files, rivals, [], {})
      modifies this
      ensures Valid() && Forward(start, files) && ledger == old(ledger)
      ensures AllRivals(schedule).Within(rivals) && (old(schedule) == [] ==> schedule == [])
      ensures |items| <= Limit(limit) && WaitTakes(start, files, rivals, listed, look, items, r)
      ensures RoundEnds(look, limit, items, r)
      ensures look.before != Live ==> files == old(files)
      ensures old(Alone()) && look.before == Live ==>
                RoundExactly(old(files), files, limit, look, items, r) && Alone()
    {
      listed := [];
      if look.before != Live {
        NoneLostMore(start, files, rivals, [], {}, IdSet(First(listed, look.cancelAt)));
        return [], EndOf(look.before, Failing), listed;
      }
      var ok;
      items, ok, listed := Poll(limit, now, look.cancelAt, start, rivals);
      if !ok { return items, EndOf(look.after, Failing), listed; }
      return items, if items == [] then StillWaiting else Got, listed;
    }

    /** Polls until something is claimed, a poll fails or the wait ends. `looks`
        holds what each round to come finds, `rounds` is how many were begun, and
        `listed` what the last one listed. */
    method WaitReceive(limit: int, looks: seq<Look>, now: int)
      returns (items: seq<Item>, r: Waited, rounds: nat, ghost listed: seq<Id>)
      requires Valid()
      modifies this
      ensures Valid() && Moved() && ledger == old(ledger)
      ensures |items| <= Limit(limit)
      ensures WaitEnds(looks, rounds, limit, items, r)
      ensures WaitTakes(old(files), files, AllRivals(old(schedule)), listed, LastLook(looks, rounds), items, r)
      ensures old(Alone()) ==> WaitsExactly(old(files), files, limit, looks, rounds, items, r)
    {
      items, r, rounds, listed := [], StillWaiting, 0, [];
      ghost var quiet := Alone();
      NothingIsTaken(files, AllRivals(schedule));
      while rounds < |looks|
        invariant Valid() && Moved() && Takes([], {}) && ledger == old(ledger)
        invariant items == [] && r == StillWaiting && 0 <= rounds <= |looks| && LiveUntil(looks, rounds)
        invariant WaitTakes(old(files), files, AllRivals(old(schedule)), listed, LastLook(looks, rounds), items, r)
        invariant quiet ==> Alone() && files == old(files) && (rounds > 0 ==> Listing(files) == [])
      {
        var made, look := rounds, looks[rounds];
        items, r, listed := WaitRound(limit, look, now, old(files), AllRivals(old(schedule)));
        rounds := made + 1;
        if r != StillWaiting {
          WaitIsOver(looks, made, limit, items, r);
          if quiet { WaitDecides(old(files), files, limit, looks, made, items, r); }
          return;
        }
        LiveOnce(looks, made);
        if quiet { NothingListed(old(files), files, limit, look, items); }
      }
      StillWaits(looks, limit);
      if quiet { WaitsInVain(files, limit, looks); }
    }
  }

  /** The first rounds found the wait going on. */
  ghost predicate LiveUntil(looks: seq<Look>, made: nat) {
    made <= |looks| && forall n | 0 <= n < made :: looks[n].before == Live
  }

  /** What the last of the rounds found. */
  function LastLook(looks: seq<Look>, rounds: nat): Look {
    if 0 < rounds <= |looks| then looks[rounds - 1] else Look(Cancelled, Cancelled, 0)
  }

  lemma NothingIsTaken(fs: Files, rivals: Rivals)
    ensures WaitTakes(fs, fs, rivals, [], Look(Cancelled, Cancelled, 0), [], StillWaiting)
    ensures IdSet(Ids([])) == {}
  {
    NothingIsAccounted(fs, rivals);
    assert IdSet(Ids([])) == IdSet(First([], 0)) == {};
  }

  lemma LiveOnce(looks: seq<Look>, made: nat)
    requires made < |looks| && LiveUntil(looks, made) && looks[made].before == Live
    ensures LiveUntil(looks, made + 1)
  {
  }

  /** How a round comes to its reply: an end noticed before the poll, a poll
      that failed, in which case an end of the wait is reported in place of the
      error, or a poll with or without bodies. */
  predicate RoundEnds(look: Look, limit: int, items: seq<Item>, r: Waited) {
    match look.before
    case Expired => items == [] && r == TimedOut
    case Cancelled => items == [] && r == Interrupted
    case Live =>
      || (r == Got && items != [])
      || (r == StillWaiting && items == [])
      || (PollFails(look, r) && |items| < Limit(limit))
  }

  predicate PollFails(look: Look, r: Waited) {
    && (look.after == Live <==> r == Failing)
    && (look.after == Expired <==> r == TimedOut)
    && (look.after == Cancelled <==> r == Interrupted)
  }

  /** Every round but the last found the wait going on and nothing to claim; the
      last one decides. */
  ghost predicate WaitEnds(looks: seq<Look>, rounds: nat, limit: int, items: seq<Item>, r: Waited) {
    if r == StillWaiting then rounds == |looks| && items == [] && LiveUntil(looks, |looks|)
    else 0 < rounds <= |looks| && LiveUntil(looks, rounds - 1) && RoundEnds(looks[rounds - 1], limit, items, r)
  }

  /** What a round may have claimed: some of the first listed items, oldest
      first, and nothing else unless it failed; and a poll fails only because it
      noticed in its claim loop that the wait has ended. */
  ghost predicate WaitTakes(
    start: Files, fs: Files, rivals: Rivals, listed: seq<Id>, look: Look, items: seq<Item>, r: Waited)
  {
    && ListsGood(start, fs, listed) && GoodBatch(start, fs, items)
    && |items| <= look.cancelAt && FromFirst(fs, listed, look.cancelAt, items)
    && NoneLost(start, fs, rivals, items, IdSet(First(listed, look.cancelAt)))
    && if r == Got || r == StillWaiting then NoneLost(start, fs, rivals, items, IdSet(Ids(items)))
       else look.before == Live ==> CutShort(fs, listed, look.cancelAt)
  }

  /** A poll nobody interfered with. */
  ghost predicate RoundExactly(start: Files, fs: Files, limit: int, look: Look, items: seq<Item>, r: Waited) {
    var batch := First(Listing(start), if 1 <= limit <= 100 then limit else 20);
    && Ids(items) == First(batch, look.cancelAt) && Claims(start, fs, items)
    && if |batch| > look.cancelAt then PollFails(look, r)
       else r == if batch == [] then StillWaiting else Got
  }

  /** A wait nobody interfered with: with something to claim, the first round
      decides; with nothing, it lasts until an end is noticed before a poll. */
  ghost predicate WaitsExactly(
    start: Files, fs: Files, limit: int, looks: seq<Look>, rounds: nat, items: seq<Item>, r: Waited)
  {
    if looks != [] && looks[0].before == Live && Listing(start) != [] then
      rounds == 1 && RoundExactly(start, fs, limit, looks[0], items, r)
    else
      && fs == start && items == []
      && if r == StillWaiting then rounds == |looks| && LiveUntil(looks, |looks|)
         else
           && 0 < rounds <= |looks| && LiveUntil(looks, rounds - 1)
           && if r == TimedOut then looks[rounds - 1].before == Expired
              else r == Interrupted && looks[rounds - 1].before == Cancelled
  }

  lemma StillWaits(looks: seq<Look>, limit: int)
    requires LiveUntil(looks, |looks|)
    ensures WaitEnds(looks, |looks|, limit, [], StillWaiting)
  {
  }

  lemma WaitsInVain(fs: Files, limit: int, looks: seq<Look>)
    requires LiveUntil(looks, |looks|) && (looks != [] ==> Listing(fs) == [])
    ensures WaitsExactly(fs, fs, limit, looks, |looks|, [], StillWaiting)
  {
  }

  lemma WaitIsOver(looks: seq<Look>, made: nat, limit: int, items: seq<Item>, r: Waited)
    requires made < |looks| && LiveUntil(looks, made) && r != StillWaiting
    requires RoundEnds(looks[made], limit, items, r)
    ensures WaitEnds(looks, made + 1, limit, items, r)
  {
  }

  lemma WaitDecides(
    start: Files, fs: Files, limit: int, looks: seq<Look>, made: nat, items: seq<Item>, r: Waited)
    requires made < |looks| && LiveUntil(looks, made) && (made > 0 ==> Listing(start) == []) && r != StillWaiting
    requires RoundEnds(looks[made], limit, items, r)
    requires if looks[made].before == Live then RoundExactly(start, fs, limit, looks[made], items, r) else fs == start
    ensures WaitsExactly(start, fs, limit, looks, made + 1, items, r)
  {
  }

  /** A round that leaves the wait going on found nothing and left everything. */
  lemma NothingListed(start: Files, fs: Files, limit: int, look: Look, items: seq<Item>)
    requires RoundExactly(start, fs, limit, look, items, StillWaiting)
    ensures Listing(start) == [] && items == [] && fs == start
  {
    ClaimSetNothing(start);
    assert Ids(items) == [];
    assert IdSet([]) == {};
  }

  /** Listed ids are in order, have a good file, and were nobody's. */
  ghost predicate ListsGood(start: Files, fs: Files, listed: seq<Id>) {
    Ascending(listed) && forall id | id in listed :: HasGood(fs, id) && Unclaimed(start, id)
  }

  lemma ListsGoodLater(start: Files, mid: Files, fs: Files, listed: seq<Id>)
    requires ListsGood(start, mid, listed) && Forward(mid, fs)
    ensures ListsGood(start, fs, listed)
  {
    forall id | id in listed
      ensures HasGood(fs, id)
    {
      assert HasGood(mid, id) && mid.Lookup(id) == fs.Lookup(id);
    }
  }

  lemma ListsGoodEarlier(start: Files, mid: Files, fs: Files, listed: seq<Id>)
    requires ListsGood(mid, fs, listed) && Forward(start, mid) && start.Disjoint() && mid.Disjoint()
    ensures ListsGood(start, fs, listed)
  {
    forall id | id in listed
      ensures Unclaimed(start, id)
    {
      UnclaimedBefore(start, mid, id);
    }
  }

  lemma ListedAreGood(start: Files, fs: Files, items: seq<Item>)
    requires Ascending(Ids(items))
    requires forall i | 0 <= i < |items| :: IsItemOf(fs, items[i]) && Unclaimed(start, items[i].id)
    ensures ListsGood(start, fs, Ids(items))
  {
    forall id | id in Ids(items)
      ensures HasGood(fs, id) && Unclaimed(start, id)
    {
      var i :| 0 <= i < |items| && items[i].id == id;
    }
  }

  /** Everything readable at the start and still pending is listed, save what
      could not be read. */
  ghost predicate ListsUnread(start: Files, fs: Files, listed: seq<Id>, skipped: set<Id>) {
    forall id | start.Readable(id) && id in fs.pending :: id in listed || id in skipped
  }

  lemma ListsUnreadLater(start: Files, mid: Files, fs: Files, listed: seq<Id>, skipped: set<Id>)
    requires Forward(start, mid) && Forward(mid, fs) && ListsUnread(start, mid, listed, skipped)
    ensures ListsUnread(start, fs, listed, skipped)
  {
    forall id | start.Readable(id) && id in fs.pending
      ensures id in listed || id in skipped
    {
      if id !in mid.pending { LeftPending(mid, fs, id); }
    }
  }

  ghost predicate HasGood(fs: Files, id: Id) {
    fs.Lookup(id).Some? && fs.Lookup(id).value.Good?
  }

  /** A good item that has left pending/ is in claimed/ or done/. */
  lemma GoodPastPending(start: Files, listed: Files, fs: Files, id: Id)
    requires Forward(start, listed) && Forward(listed, fs) && start.Disjoint() && fs.Disjoint()
    requires start.Readable(id) ==> id !in listed.pending
    ensures HasGood(start, id) && id in fs.claimed ==> fs.claimed[id].Good?
    ensures HasGood(start, id) && id !in fs.claimed ==> id in fs.done && fs.done[id].Good?
  {
    if HasGood(start, id) {
      assert listed.Lookup(id) == start.Lookup(id) == fs.Lookup(id);
      assert start.StageOf(id).Rank() <= listed.StageOf(id).Rank() <= fs.StageOf(id).Rank();
    }
  }

  lemma GoodPastClaimed(start: Files, before: Files, fs: Files, id: Id)
    requires Forward(start, before) && Forward(before, fs)
    requires HasGood(start, id) ==> id in before.done && before.done[id].Good? && before.Disjoint() && fs.Disjoint()
    ensures HasGood(start, id) ==> id in fs.done && fs.done[id].Good?
  {
    if HasGood(start, id) {
      assert before.Lookup(id) == fs.Lookup(id);
      assert before.StageOf(id).Rank() <= fs.StageOf(id).Rank();
    }
  }

  lemma PassedNothing(fs: Files, items: seq<Item>)
    requires forall i | 0 <= i < |items| :: IsItemOf(fs, items[i])
    ensures Passed(fs, Ids(items), 0)
  {
  }

  /** If every listed id has left pending/, so has every item that was
      readable before the listing. */
  lemma LeftForGood(start: Files, listed: Files, fs: Files, ids: seq<Id>, skipped: set<Id>)
    requires Forward(start, listed) && Forward(listed, fs) && Passed(fs, ids, |ids|)
    requires forall id | start.Readable(id) && id in listed.pending :: id in ids || id in skipped
    ensures Emptied(start, fs, skipped)
  {
    forall id | start.Readable(id)
      ensures id !in fs.pending || id in skipped
    {
      if id in listed.pending && id !in skipped {
        var j :| 0 <= j < |ids| && ids[j] == id;
      } else if id !in skipped {
        LeftPending(listed, fs, id);
      }
    }
  }

  lemma NotDoneBefore(a: Files, b: Files, id: Id)
    requires Forward(a, b) && a.Disjoint() && b.Disjoint() && (id in b.claimed || id in b.pending)
    ensures id !in a.done
  {
    assert a.StageOf(id).Rank() <= b.StageOf(id).Rank();
  }

  /** Once every name of a snapshot has left pending/, the names add to it. */
  lemma PassedSnapshot(pending: set<Id>, names: set<Id>, ids: seq<Id>)
    requires ids == Sorted(names) && ids != []
    requires forall j | 0 <= j < |ids| :: ids[j] !in pending
    ensures |pending + {}| < |pending + names|
  {
    assert pending !! names by {
      forall x | x in names
        ensures x !in pending
      {
        assert x in ids;
      }
    }
    assert |pending + names| == |pending| + |names|;
    assert pending + {} == pending;
  }
}
