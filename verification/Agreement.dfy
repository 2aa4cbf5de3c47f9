/** The two views of the operations agree: a call of the transition system that
    runs alone, from start to return, does what the program does. */
module Agreement {
  import opened Order
  import opened MailFiles
  import opened Ledgers
  import opened Protocol
  import opened Runs
  import M = Mailbox

  lemma SetTwice(w: World, pid: Pid, a: Proc, b: Proc)
    ensures w.Set(pid, a).Set(pid, b) == w.Set(pid, b)
  {
    assert w.procs[pid := a][pid := b] == w.procs[pid := b];
  }

  // ---- Listing ----

  function Kept(fs: Files, names: seq<Id>): seq<Id> {
    if names == [] then []
    else (if fs.Readable(names[0]) then [names[0]] else []) + Kept(fs, names[1..])
  }

  lemma {:induction false} KeptMembers(fs: Files, names: seq<Id>)
    ensures forall id :: id in Kept(fs, names) <==> id in names && fs.Readable(id)
  {
    if names != [] { KeptMembers(fs, names[1..]); }
  }

  lemma {:induction false} KeptAscending(fs: Files, names: seq<Id>)
    requires Ascending(names)
    ensures Ascending(Kept(fs, names))
  {
    if names != [] {
      KeptAscending(fs, names[1..]);
      KeptMembers(fs, names[1..]);
      var rest := Kept(fs, names[1..]);
      forall i | 0 <= i < |rest|
        ensures Less(names[0], rest[i])
      {
        assert rest[i] in names[1..];
        var j :| 0 <= j < |names| - 1 && names[1..][j] == rest[i];
        assert names[j + 1] == rest[i];
      }
    }
  }

  lemma KeptIsListing(fs: Files)
    ensures Kept(fs, Sorted(fs.pending.Keys)) == M.Listing(fs)
  {
    var names := Sorted(fs.pending.Keys);
    KeptMembers(fs, names);
    KeptAscending(fs, names);
    SortedUnique(Kept(fs, names), M.ReadableIds(fs));
  }

  /** A call that reads the listed files one by one keeps the readable ones. */
  lemma {:induction false} ReadAll(w: World, pid: Pid, p: Proc, go: Choice) returns (v: World, ws: seq<World>)
    requires At(w, pid, p) && p.pc == ReadItem && !go.fail
    ensures Leads(w, v, ws, pid, go)
    ensures v == w.Set(pid, AfterListing(p.(ids := p.ids + Kept(w.files, p.todo), todo := []), w.clock))
    decreases |p.todo|
  {
    v, ws := OneStep(w, pid, p, go);
    if p.todo == [] {
      assert p.ids + Kept(w.files, p.todo) == p.ids && p.(todo := []) == p;
    } else {
      var u, us, q := v, ws, PlanListing(w, p, go).0;
      v, ws := ReadAll(u, pid, q, go);
      Join(w, u, v, us, ws, pid, go);
      ws := us + ws[1..];
      assert q.ids + Kept(w.files, q.todo) == p.ids + Kept(w.files, p.todo);
      SetTwice(w, pid, q, AfterListing(q.(ids := q.ids + Kept(w.files, q.todo), todo := []), w.clock));
    }
  }

  lemma ScanOne(w: World, pid: Pid, p: Proc, go: Choice) returns (v: World, ws: seq<World>)
    requires At(w, pid, p) && p.pc == Scan && !go.fail
    ensures Leads(w, v, ws, pid, go)
    ensures v == w.Set(pid, AfterScan(p, Sorted(w.files.pending.Keys), w.hist.pushed.Keys))
  {
    v, ws := OneStep(w, pid, p, go);
  }

  /** The call that has listed pending/, before its next operation. */
  ghost function Listed(w: World, p: Proc): Proc {
    AfterListing(
      p.(ids := M.Listing(w.files), todo := [], base := w.hist.pushed.Keys, missed := {}, pc := ReadItem), w.clock)
  }

  /** From a scan to the operation after the listing. */
  lemma ScanAll(w: World, pid: Pid, p: Proc, go: Choice) returns (v: World, ws: seq<World>)
    requires At(w, pid, p) && p.pc == Scan && !p.call.TakeNext? && !go.fail
    ensures Leads(w, v, ws, pid, go) && v == w.Set(pid, Listed(w, p))
  {
    var u, us := ScanOne(w, pid, p, go);
    var q := AfterScan(p, Sorted(w.files.pending.Keys), w.hist.pushed.Keys);
    v, ws := ReadAll(u, pid, q, go);
    Join(w, u, v, us, ws, pid, go);
    ws := us + ws[1..];
    ScannedIsListed(w, p);
    SetTwice(w, pid, q, Listed(w, p));
  }

  lemma ScannedIsListed(w: World, p: Proc)
    requires !p.call.TakeNext?
    ensures var q := AfterScan(p, Sorted(w.files.pending.Keys), w.hist.pushed.Keys);
            AfterListing(q.(ids := q.ids + Kept(w.files, q.todo), todo := []), w.clock) == Listed(w, p)
  {
    KeptIsListing(w.files);
    assert [] + M.Listing(w.files) == M.Listing(w.files);
  }

  // ---- Claiming ----

  /** How many of the listed ids still fit the batch. */
  function Room(p: Proc): nat
    requires p.call.Receive? && |p.got| <= Limit(p.call.limit)
  {
    var free := Limit(p.call.limit) - |p.got|;
    if |p.todo| <= free then |p.todo| else free
  }

  /** The claim loop has run: it took the first ids that fit. */
  ghost predicate Took(w: World, p: Proc, v: World, q: Proc)
    requires p.call.Receive? && |p.got| <= Limit(p.call.limit)
  {
    && v.files == M.ClaimSet(w.files, M.IdSet(p.todo[..Room(p)]))
    && v.ledger == w.ledger && v.lock == w.lock
    && q == p.(todo := p.todo[Room(p)..], got := q.got, cur := q.cur)
    && M.Ids(q.got) == M.Ids(p.got) + p.todo[..Room(p)]
    && |p.got| <= |q.got| && IsGot(w.files, q.got, |p.got|)
    && (forall i | 0 <= i < |p.got| :: q.got[i] == p.got[i])
  }

  /** The items from position n on have the content of their files. */
  predicate IsGot(fs: Files, got: seq<Item>, n: nat) {
    forall i | n <= i < |got| :: fs.Lookup(got[i].id) == Some(Good(got[i].text))
  }

  /** One rename and the read after it. */
  lemma ClaimOne(w: World, pid: Pid, p: Proc, go: Choice) returns (v: World, ws: seq<World>)
    requires At(w, pid, p) && p.pc == Rename && p.call.Receive? && !go.fail
    requires p.todo != [] && |p.got| < Limit(p.call.limit) && w.files.Readable(p.todo[0])
    ensures Leads(w, v, ws, pid, go)
    ensures pid in v.procs && At(v, pid, v.procs[pid]) && TookOne(w, p, v, v.procs[pid])
  {
    var u, us := RenameAlone(w, pid, p, go);
    v, ws := OneStep(u, pid, u.procs[pid], go);
    Join(w, u, v, us, ws, pid, go);
    ws := us + ws[1..];
  }

  lemma RenameAlone(w: World, pid: Pid, p: Proc, go: Choice) returns (v: World, ws: seq<World>)
    requires At(w, pid, p) && p.pc == Rename && p.call.Receive? && !go.fail
    requires p.todo != [] && |p.got| < Limit(p.call.limit) && w.files.Readable(p.todo[0])
    ensures Leads(w, v, ws, pid, go)
    ensures v.files == w.files.Claim(p.todo[0]) && v.ledger == w.ledger && v.lock == w.lock
    ensures At(v, pid, p.(cur := p.todo[0], todo := p.todo[1..], pc := ReadBody))
  {
    v, ws := OneStep(w, pid, p, go);
  }

  lemma {:induction false} ClaimAll(w: World, pid: Pid, p: Proc, go: Choice) returns (v: World, ws: seq<World>)
    requires At(w, pid, p) && p.pc == Rename && p.call.Receive? && !go.fail
    requires w.files.Disjoint() && |p.got| <= Limit(p.call.limit)
    requires Ascending(p.todo) && M.AllReadableIds(w.files, p.todo)
    ensures Leads(w, v, ws, pid, go)
    ensures pid in v.procs && At(v, pid, v.procs[pid]) && Took(w, p, v, v.procs[pid])
    decreases |p.todo|
  {
    if Room(p) == 0 {
      v, ws := w, [w];
      TookNothing(w, p);
    } else {
      var id := p.todo[0];
      assert w.files.Readable(id);
      var u, us := ClaimOne(w, pid, p, go);
      ClaimMoves(w.files, id);
      RestIsReadable(w.files, p.todo);
      v, ws := ClaimAll(u, pid, u.procs[pid], go);
      Join(w, u, v, us, ws, pid, go);
      ws := us + ws[1..];
      TookMore(w, p, u, u.procs[pid], v, v.procs[pid]);
    }
  }

  lemma TookNothing(w: World, p: Proc)
    requires p.call.Receive? && |p.got| <= Limit(p.call.limit) && Room(p) == 0
    ensures Took(w, p, w, p)
  {
    M.ClaimSetNothing(w.files);
    assert p.todo[..0] == [] && p.todo[0..] == p.todo && M.IdSet([]) == {};
    assert M.Ids(p.got) + [] == M.Ids(p.got);
  }

  lemma RestIsReadable(fs: Files, ids: seq<Id>)
    requires ids != [] && Ascending(ids) && M.AllReadableIds(fs, ids)
    ensures Ascending(ids[1..]) && M.AllReadableIds(fs.Claim(ids[0]), ids[1..])
  {
    AscendingIsDistinct(ids);
    forall j | 0 <= j < |ids| - 1
      ensures fs.Claim(ids[0]).Readable(ids[1..][j])
    {
      assert ids[1..][j] == ids[j + 1] && ids[0] != ids[j + 1] && fs.Readable(ids[j + 1]);
    }
  }

  lemma ClaimThenSet(fs: Files, id: Id, ids: set<Id>)
    requires id in fs.pending && id !in ids
    ensures M.ClaimSet(fs.Claim(id), ids) == M.ClaimSet(fs, ids + {id})
  {
    assert fs.pending - {id} - ids == fs.pending - (ids + {id});
  }

  /** The state a claim of the first listed id leaves. */
  ghost predicate TookOne(w: World, p: Proc, v: World, q: Proc)
    requires p.todo != [] && w.files.Readable(p.todo[0])
  {
    var id := p.todo[0];
    && v.files == w.files.Claim(id) && v.ledger == w.ledger && v.lock == w.lock
    && q == p.(todo := p.todo[1..], cur := id, got := p.got + [ToItem(id, w.files.pending[id])])
  }

  lemma ClaimsAddUp(fs: Files, ids: seq<Id>, k: nat)
    requires 0 < k <= |ids| && Ascending(ids) && ids[0] in fs.pending
    ensures M.ClaimSet(fs.Claim(ids[0]), M.IdSet(ids[1..][..k - 1])) == M.ClaimSet(fs, M.IdSet(ids[..k]))
  {
    AscendingIsDistinct(ids);
    assert ids[..k] == [ids[0]] + ids[1..][..k - 1];
    assert M.IdSet(ids[..k]) == M.IdSet(ids[1..][..k - 1]) + {ids[0]};
    ClaimThenSet(fs, ids[0], M.IdSet(ids[1..][..k - 1]));
  }

  lemma ListsAddUp(ids: seq<Id>, k: nat, before: seq<Id>)
    requires 0 < k <= |ids|
    ensures ids[1..][k - 1..] == ids[k..]
    ensures before + [ids[0]] + ids[1..][..k - 1] == before + ids[..k]
  {
  }

  lemma TookMore(w: World, p: Proc, v: World, q: Proc, u: World, r: Proc)
    requires p.call.Receive? && |p.got| < Limit(p.call.limit) && p.todo != []
    requires Ascending(p.todo) && w.files.Readable(p.todo[0]) && w.files.Disjoint()
    requires TookOne(w, p, v, q) && Took(v, q, u, r)
    ensures Took(w, p, u, r)
  {
    var id, k := p.todo[0], Room(p);
    assert Room(q) == k - 1;
    ClaimsAddUp(w.files, p.todo, k);
    ClaimMoves(w.files, id);
    ListsAddUp(p.todo, k, M.Ids(p.got));
    assert M.Ids(q.got) == M.Ids(p.got) + [id];
    GotMore(w.files, v.files, p.got, q.got, r.got);
  }

  lemma GotMore(fs: Files, later: Files, got: seq<Item>, more: seq<Item>, all: seq<Item>)
    requires |more| == |got| + 1 && more[..|got|] == got && |all| >= |more| && IsGot(fs, more, |got|)
    requires (forall x :: later.Lookup(x) == fs.Lookup(x))
    requires (forall i | 0 <= i < |more| :: all[i] == more[i]) && IsGot(later, all, |more|)
    ensures (forall i | 0 <= i < |got| :: all[i] == got[i]) && IsGot(fs, all, |got|)
  {
    forall i | 0 <= i < |got|
      ensures all[i] == got[i]
    {
      assert more[..|got|][i] == more[i];
    }
  }

  // ---- Receive ----

  /** What the steps of one call before its first write leave alone. */
  ghost predicate Untouched(w: World, v: World) {
    && v.files == w.files && v.ledger == w.ledger && v.clock == w.clock && v.address == w.address
    && v.hist == w.hist
  }

  /** Taking the lock and, where the call reads it, the ledger. */
  lemma OpenCall(w: World, pid: Pid, call: Call, go: Choice) returns (v: World, ws: seq<World>)
    requires At(w, pid, Begun(call)) && (call.Notify? || call.Receive?) && w.lock == None && !go.fail
    ensures Leads(w, v, ws, pid, go) && Untouched(w, v)
    ensures At(v, pid,
               if call.Receive? && call.notice.None? then Begun(call).(pc := Scan)
               else if call.Receive? && !Accepts(w.ledger, call.notice.value) then Begun(call).Done(Ok)
               else Begun(call).(st := w.ledger, pc := Scan))
  {
    var u, us := OneStep(w, pid, Begun(call), go);
    if call.Receive? && call.notice.None? {
      v, ws := u, us;
    } else {
      v, ws := OneStep(u, pid, Begun(call).(pc := ReadLedger), go);
      Join(w, u, v, us, ws, pid, go);
      ws := us + ws[1..];
    }
  }

  /** The end of the claim loop, when no listed id fits the batch. */
  lemma FinishAlone(w: World, pid: Pid, p: Proc, go: Choice) returns (v: World, ws: seq<World>)
    requires At(w, pid, p) && p.pc == Rename && p.call.Receive? && |p.got| <= Limit(p.call.limit) && Room(p) == 0
    requires p.call.notice.Some? && p.got == [] ==> p.st.phase == Received
    ensures Leads(w, v, ws, pid, go)
    ensures v.files == w.files && v.ledger == w.ledger && At(v, pid, p.Done(Ok))
  {
    v, ws := OneStep(w, pid, p, go);
  }

  /** The claim loop and the return after it, for a call that has listed and,
      with a notice, has recorded what it saw. */
  lemma ClaimAndReturn(w: World, pid: Pid, p: Proc, go: Choice) returns (v: World, ws: seq<World>)
    requires At(w, pid, p) && p.pc == Rename && p.call.Receive? && p.got == [] && !go.fail
    requires w.files.Disjoint() && p.todo == M.Listing(w.files)
    requires p.call.notice.Some? && p.todo == [] ==> p.st.phase == Received
    ensures Leads(w, v, ws, pid, go)
    ensures pid in v.procs && At(v, pid, v.procs[pid]) && v.procs[pid].pc == Return && v.procs[pid].outcome == Ok
    ensures var k, got := Room(p), v.procs[pid].got;
            && v.files == M.ClaimSet(w.files, M.IdSet(p.todo[..k])) && v.ledger == w.ledger
            && M.Ids(got) == p.todo[..k] && IsGot(w.files, got, 0)
  {
    M.ListingIsReadable(w.files);
    var u, us := ClaimAll(w, pid, p, go);
    var q := u.procs[pid];
    assert M.Ids(p.got) + p.todo[..Room(p)] == p.todo[..Room(p)];
    assert |M.Ids(q.got)| == |q.got|;
    v, ws := FinishAlone(u, pid, q, go);
    Join(w, u, v, us, ws, pid, go);
    ws := us + ws[1..];
  }

  lemma ObserveAlone(w: World, pid: Pid, p: Proc, go: Choice) returns (v: World, ws: seq<World>)
    requires At(w, pid, p) && p.pc == WriteObserved && !go.fail
    ensures Leads(w, v, ws, pid, go)
    ensures v.files == w.files && v.ledger == Observe(p.st, p.ids == [], p.now)
    ensures At(v, pid, p.(st := v.ledger, pc := Rename))
  {
    v, ws := OneStep(w, pid, p, go);
  }

  /** From the scan of a receive to its first rename. */
  lemma ListAlone(w: World, pid: Pid, p: Proc, go: Choice) returns (v: World, ws: seq<World>)
    requires At(w, pid, p) && p.pc == Scan && p.call.Receive? && p.got == [] && !go.fail
    requires p.call.notice.Some? ==> p.st == w.ledger && Accepts(w.ledger, p.call.notice.value)
    ensures Leads(w, v, ws, pid, go) && v.files == w.files
    ensures v.ledger == M.ReceivedLedger(w.ledger, p.call.notice, M.Listing(w.files) == [], w.clock)
    ensures pid in v.procs && At(v, pid, v.procs[pid])
    ensures var q := v.procs[pid];
            && q.pc == Rename && q.call == p.call && q.got == [] && q.todo == M.Listing(w.files)
            && (q.call.notice.Some? && q.todo == [] ==> q.st.phase == Received)
  {
    v, ws := ScanAll(w, pid, p, go);
    if p.call.notice.Some? {
      var u, us := v, ws;
      v, ws := ObserveAlone(u, pid, Listed(w, p), go);
      Join(w, u, v, us, ws, pid, go);
      ws := us + ws[1..];
    }
  }

  /** A receive that runs alone claims what the program's receive claims and
      leaves the same files and the same ledger. */
  lemma ReceiveAlone(w: World, pid: Pid, notice: Option<NoticeId>, limit: int, go: Choice)
    returns (v: World, ws: seq<World>)
    requires At(w, pid, Begun(Receive(notice, limit))) && w.lock == None && w.files.Disjoint() && !go.fail
    ensures Leads(w, v, ws, pid, go)
    ensures pid in v.procs && v.procs[pid].pc == Return && v.procs[pid].outcome == Ok
    ensures M.ReceivesOldest(w.files, w.ledger, v.files, v.ledger, notice, limit, w.clock, v.procs[pid].got)
    ensures IsGot(w.files, v.procs[pid].got, 0)
  {
    v, ws := OpenCall(w, pid, Receive(notice, limit), go);
    if notice.Some? && !Accepts(w.ledger, notice.value) {
      M.NothingIsReceived(w.files, w.ledger, notice.value, limit, w.clock);
    } else {
      var u, us := v, ws;
      v, ws := ListAlone(u, pid, u.procs[pid], go);
      Join(w, u, v, us, ws, pid, go);
      u, us := v, us + ws[1..];
      var p := u.procs[pid];
      v, ws := ClaimAndReturn(u, pid, p, go);
      Join(w, u, v, us, ws, pid, go);
      ws := us + ws[1..];
      ClaimsOldest(w.files, w.ledger, v.files, v.ledger, notice, limit, w.clock, v.procs[pid].got);
    }
  }

  lemma ClaimsOldest(
    fs: Files, l: Ledger, after: Files, ledger: Ledger, notice: Option<NoticeId>, limit: int, now: int, got: seq<Item>)
    requires notice.Some? ==> Accepts(l, notice.value)
    requires var ids := M.Listing(fs);
             var k := if |ids| <= Limit(limit) then |ids| else Limit(limit);
             after == M.ClaimSet(fs, M.IdSet(ids[..k])) && M.Ids(got) == ids[..k]
    requires ledger == M.ReceivedLedger(l, notice, M.Listing(fs) == [], now)
    ensures M.ReceivesOldest(fs, l, after, ledger, notice, limit, now, got)
  {
    assert M.Listing(fs)[..|M.Listing(fs)|] == M.Listing(fs);
  }

  // ---- Notify ----

  function ReplyOf(outcome: Outcome): M.Notified {
    match outcome
    case Ok => M.Signalled
    case NotFound => M.Missing
    case Busy => M.Reserved
    case _ => M.Refused
  }

  /** A host that answers as the choice says, and writes that succeed. */
  function HostOf(go: Choice): M.Host {
    M.Host(true, true, go.answer, go.nonce, M.Saves(true, true))
  }

  /** What the program's notify of a listed item does to the ledger, its reply,
      and the identity it gives to the host. */
  ghost predicate Notifies(w: World, v: World, p: Proc, ids: seq<Id>, item: Id, compatible: bool, go: Choice) {
    && v.files == w.files
    && v.ledger == M.NotifiedLedger(w.ledger, ids, item, compatible, w.clock, HostOf(go))
    && p.pc == Return && ReplyOf(p.outcome) == M.NotifyReply(w.ledger, item, compatible, w.clock, HostOf(go))
    && (if M.Submits(w.ledger, item, compatible, w.clock, HostOf(go)) then
          && |v.hist.handed| == |w.hist.handed| + 1
          && v.hist.handed[|w.hist.handed|].id == IdentityFor(w.ledger, compatible, ids, go.nonce)
        else v.hist.handed == w.hist.handed)
  }

  lemma ReserveAlone(w: World, pid: Pid, p: Proc, go: Choice) returns (v: World, ws: seq<World>)
    requires At(w, pid, p) && p.pc == WriteSubmitting && !go.fail
    ensures Leads(w, v, ws, pid, go) && v.files == w.files && v.ledger == p.st
    ensures At(v, pid, p.(pc := CallHost)) && v.hist.handed == w.hist.handed && v.hist.nonces == w.hist.nonces
  {
    v, ws := OneStep(w, pid, p, go);
  }

  /** The first n host calls are the same, whatever has been marked on them. */
  ghost predicate SameCalls(a: seq<Submission>, b: seq<Submission>, n: nat) {
    && n <= |a| && n <= |b|
    && (forall k | 0 <= k < n :: b[k].id == a[k].id && b[k].item == a[k].item && b[k].ids == a[k].ids)
  }

  /** One host call was made for a call with locals p. */
  ghost predicate HandsOne(h: History, g: History, p: Proc)
    requires p.call.Notify? && p.st.id.Some?
  {
    && |g.handed| == |h.handed| + 1 && SameCalls(h.handed, g.handed, |h.handed|)
    && g.nonces == h.nonces
    && var sub := g.handed[|h.handed|];
       sub.id == p.st.id.value && sub.item == p.call.item && sub.ids == p.ids
  }

  /** From the reservation to the return. */
  lemma SubmitAlone(w: World, pid: Pid, p: Proc, go: Choice) returns (v: World, ws: seq<World>)
    requires At(w, pid, p) && p.pc == WriteSubmitting && p.st.phase == Submitting && !go.fail
    ensures Leads(w, v, ws, pid, go) && v.files == w.files
    ensures v.ledger == if go.answer == AnsInvalid then p.st else Settle(p.st, p.compatible, p.ids, go.answer)
    ensures pid in v.procs && At(v, pid, v.procs[pid]) && v.procs[pid].pc == Return && v.procs[pid].call == p.call
    ensures v.procs[pid].outcome == if Accepted(go.answer) then Ok else OtherError
    ensures HandsOne(w.hist, v.hist, p)
  {
    var u, us := ReserveAlone(w, pid, p, go);
    var q := p.(pc := CallHost);
    v, ws := OneStep(u, pid, q, go);
    Join(w, u, v, us, ws, pid, go);
    ws := us + ws[1..];
    if go.answer != AnsInvalid {
      u, us := v, ws;
      v, ws := ReceiptAlone(u, pid, u.procs[pid], go);
      Join(w, u, v, us, ws, pid, go);
      ws := us + ws[1..];
    }
  }

  lemma ReceiptAlone(w: World, pid: Pid, p: Proc, go: Choice) returns (v: World, ws: seq<World>)
    requires At(w, pid, p) && p.pc == WriteReceipt && !go.fail
    ensures Leads(w, v, ws, pid, go) && v.files == w.files && v.ledger == p.st
    ensures At(v, pid, p.Done(p.outcome))
    ensures SameCalls(w.hist.handed, v.hist.handed, |w.hist.handed|) && |v.hist.handed| == |w.hist.handed|
    ensures v.hist.nonces == w.hist.nonces
  {
    v, ws := OneStep(w, pid, p, go);
  }

  lemma AbsorbAlone(w: World, pid: Pid, p: Proc, go: Choice) returns (v: World, ws: seq<World>)
    requires At(w, pid, p) && p.pc == WriteAbsorbed && !go.fail
    ensures Leads(w, v, ws, pid, go) && v.files == w.files && v.ledger == p.st
    ensures At(v, pid, p.Done(Ok)) && v.hist.handed == w.hist.handed
  {
    v, ws := OneStep(w, pid, p, go);
  }

  /** The decision, and what is left to do after it. */
  lemma DecideAlone(w: World, pid: Pid, p: Proc, go: Choice) returns (v: World, ws: seq<World>, q: Proc)
    requires At(w, pid, p) && p.pc == Choose && p.st == w.ledger && !go.fail && go.nonce !in w.hist.nonces
    ensures Leads(w, v, ws, pid, go) && At(v, pid, q)
    ensures v.files == w.files && v.ledger == w.ledger && q.call == p.call
    ensures v.hist == if q.pc == WriteSubmitting then w.hist.(nonces := w.hist.nonces + {go.nonce}) else w.hist
    ensures match Decide(w.ledger, p.call.item, p.compatible, w.clock)
            case Absorb => q.pc == WriteAbsorbed && q.st == w.ledger.(notified := p.ids)
            case Known => q == p.Done(Ok)
            case InProgress => q == p.Done(Busy)
            case Submit =>
              && q.pc == WriteSubmitting && q.st == Begin(w.ledger, p.compatible, p.ids, w.clock, go.nonce)
              && q.ids == p.ids && q.compatible == p.compatible
  {
    v, ws := OneStep(w, pid, p, go);
    q := PlanChoice(w, p, go).0;
  }

  /** From the decision to the return. */
  lemma ChooseAlone(w: World, pid: Pid, p: Proc, go: Choice) returns (v: World, ws: seq<World>)
    requires At(w, pid, p) && p.pc == Choose && p.st == w.ledger && !go.fail && go.nonce !in w.hist.nonces
    ensures Leads(w, v, ws, pid, go) && pid in v.procs
    ensures Notifies(w, v, v.procs[pid], p.ids, p.call.item, p.compatible, go)
  {
    var u, us, q := DecideAlone(w, pid, p, go);
    if q.pc == WriteAbsorbed {
      v, ws := AbsorbAlone(u, pid, q, go);
      Join(w, u, v, us, ws, pid, go);
      ws := us + ws[1..];
    } else if q.pc == WriteSubmitting {
      v, ws := SubmitAlone(u, pid, q, go);
      Join(w, u, v, us, ws, pid, go);
      ws := us + ws[1..];
      SubmitNotifies(w, v, v.procs[pid], p, go);
    } else {
      v, ws := u, us;
    }
  }

  lemma SubmitNotifies(w: World, v: World, q: Proc, p: Proc, go: Choice)
    requires p.call.Notify? && Decide(w.ledger, p.call.item, p.compatible, w.clock) == Submit && v.files == w.files
    requires var l := Begin(w.ledger, p.compatible, p.ids, w.clock, go.nonce);
             && v.ledger == (if go.answer == AnsInvalid then l else Settle(l, p.compatible, p.ids, go.answer))
             && |v.hist.handed| == |w.hist.handed| + 1 && v.hist.handed[|w.hist.handed|].id == l.id.value
    requires q.pc == Return && q.outcome == if Accepted(go.answer) then Ok else OtherError
    ensures Notifies(w, v, q, p.ids, p.call.item, p.compatible, go)
  {
  }

  lemma AddressAlone(w: World, pid: Pid, p: Proc, go: Choice) returns (v: World, ws: seq<World>)
    requires At(w, pid, p) && p.pc == ReadAddress && !go.fail
    ensures Leads(w, v, ws, pid, go) && Untouched(w, v)
    ensures At(v, pid, p.(compatible := w.address == Some(2), pc := Choose))
  {
    v, ws := OneStep(w, pid, p, go);
  }

  /** From the start of a notify of a listed item to its decision. */
  lemma NotifyToChoice(w: World, pid: Pid, item: Id, go: Choice) returns (v: World, ws: seq<World>)
    requires At(w, pid, Begun(Notify(item))) && w.lock == None && !go.fail && item in M.Listing(w.files)
    ensures Leads(w, v, ws, pid, go) && Untouched(w, v) && pid in v.procs && At(v, pid, v.procs[pid])
    ensures var q := v.procs[pid];
            && q.pc == Choose && q.call == Notify(item) && q.st == w.ledger && q.ids == M.Listing(w.files)
            && q.compatible == (w.address == Some(2))
  {
    var u, us := OpenCall(w, pid, Notify(item), go);
    v, ws := ScanAll(u, pid, u.procs[pid], go);
    Join(w, u, v, us, ws, pid, go);
    u, us := v, us + ws[1..];
    v, ws := AddressAlone(u, pid, u.procs[pid], go);
    Join(w, u, v, us, ws, pid, go);
    ws := us + ws[1..];
  }

  /** A notify of a listed item that runs alone leaves the ledger, gives the
      reply and calls the host as the program's notify does. */
  lemma NotifyAlone(w: World, pid: Pid, item: Id, go: Choice) returns (v: World, ws: seq<World>)
    requires At(w, pid, Begun(Notify(item))) && w.lock == None && !go.fail && go.nonce !in w.hist.nonces
    requires item in M.Listing(w.files)
    ensures Leads(w, v, ws, pid, go) && pid in v.procs
    ensures Notifies(w, v, v.procs[pid], M.Listing(w.files), item, w.address == Some(2), go)
    ensures M.SignalExactly(
              w.ledger, v.ledger, M.Listing(w.files), item, w.address == Some(2), w.clock, HostOf(go),
              ReplyOf(v.procs[pid].outcome), Called(w, v))
  {
    var u, us := NotifyToChoice(w, pid, item, go);
    v, ws := ChooseAlone(u, pid, u.procs[pid], go);
    Join(w, u, v, us, ws, pid, go);
    ws := us + ws[1..];
    M.SignalIsCovered(
      w.ledger, v.ledger, M.Listing(w.files), item, w.address == Some(2), w.clock, HostOf(go),
      ReplyOf(v.procs[pid].outcome), Called(w, v));
  }

  /** The identity of the host call made between two worlds, if one was made. */
  function Called(w: World, v: World): Option<NoticeId> {
    if |w.hist.handed| < |v.hist.handed| then Some(v.hist.handed[|w.hist.handed|].id) else None
  }

  /** A notify of an item that is not listed answers from where it is and
      changes nothing. */
  lemma SearchAlone(w: World, pid: Pid, item: Id, go: Choice) returns (v: World, ws: seq<World>)
    requires At(w, pid, Begun(Notify(item))) && w.lock == None && !go.fail && item !in M.Listing(w.files)
    ensures Leads(w, v, ws, pid, go) && Untouched(w, v) && pid in v.procs && v.procs[pid].pc == Return
    ensures M.FindsExactly(w.files, item, ReplyOf(v.procs[pid].outcome))
  {
    var u, us := OpenCall(w, pid, Notify(item), go);
    v, ws := ScanAll(u, pid, u.procs[pid], go);
    Join(w, u, v, us, ws, pid, go);
    u, us := v, us + ws[1..];
    v, ws := ProbeAlone(u, pid, u.procs[pid], go);
    Join(w, u, v, us, ws, pid, go);
    ws := us + ws[1..];
  }

  lemma ProbeAlone(w: World, pid: Pid, p: Proc, go: Choice) returns (v: World, ws: seq<World>)
    requires At(w, pid, p) && p.pc == ProbeClaimed && p.call.Notify? && !go.fail
    ensures Leads(w, v, ws, pid, go) && Untouched(w, v) && pid in v.procs && v.procs[pid].pc == Return
    ensures M.FindsExactly(w.files, p.call.item, ReplyOf(v.procs[pid].outcome))
  {
    v, ws := OneStep(w, pid, p, go);
    if p.call.item !in w.files.claimed {
      var u, us := v, ws;
      v, ws := OneStep(u, pid, u.procs[pid], go);
      Join(w, u, v, us, ws, pid, go);
      ws := us + ws[1..];
    }
  }

  // ---- Take and Ack ----

  /** What a call that returned says to its caller. */
  function Answered(p: Proc): M.Reply<Item> {
    match p.outcome
    case Ok => if p.got == [] then M.Broken else M.Reply.Ok(p.got[0])
    case NotFound => M.Reply.NotFound
    case Empty => M.Reply.Empty
    case _ => M.Broken
  }

  /** The claim of one id and the read after it, or no claim. */
  ghost predicate TakesOne(fs: Files, after: Files, id: Id, r: M.Reply<Item>) {
    if id !in fs.pending then r == M.Reply.NotFound && after == fs
    else
      && after == fs.Claim(id)
      && r == match fs.pending[id]
              case Good(text) => M.Reply.Ok(Item(id, text))
              case Corrupt => M.Broken
  }

  lemma RenameAndRead(w: World, pid: Pid, p: Proc, go: Choice) returns (v: World, ws: seq<World>)
    requires At(w, pid, p) && p.pc == Rename && (p.call.Take? || p.call.TakeNext?) && !go.fail
    requires p.todo != [] && p.got == [] && (p.call.TakeNext? ==> p.todo[0] in w.files.pending)
    ensures Leads(w, v, ws, pid, go) && v.ledger == w.ledger && v.lock == w.lock
    ensures pid in v.procs && v.procs[pid].pc == Return
    ensures TakesOne(w.files, v.files, p.todo[0], Answered(v.procs[pid]))
  {
    v, ws := TryRename(w, pid, p, go);
    if p.todo[0] in w.files.pending {
      var u, us := v, ws;
      v, ws := ReadTaken(u, pid, u.procs[pid], go);
      Join(w, u, v, us, ws, pid, go);
      ws := us + ws[1..];
    }
  }

  lemma TryRename(w: World, pid: Pid, p: Proc, go: Choice) returns (v: World, ws: seq<World>)
    requires At(w, pid, p) && p.pc == Rename && (p.call.Take? || p.call.TakeNext?) && !go.fail
    requires p.todo != [] && (p.call.TakeNext? ==> p.todo[0] in w.files.pending)
    ensures Leads(w, v, ws, pid, go) && v.ledger == w.ledger && v.lock == w.lock
    ensures v.files == if p.todo[0] in w.files.pending then w.files.Claim(p.todo[0]) else w.files
    ensures At(v, pid,
               if p.todo[0] in w.files.pending then p.(cur := p.todo[0], todo := p.todo[1..], pc := ReadBody)
               else p.Done(NotFound))
  {
    v, ws := OneStep(w, pid, p, go);
  }

  lemma ReadTaken(w: World, pid: Pid, p: Proc, go: Choice) returns (v: World, ws: seq<World>)
    requires At(w, pid, p) && p.pc == ReadBody && (p.call.Take? || p.call.TakeNext?) && !go.fail
    requires p.got == [] && p.cur in w.files.claimed
    ensures Leads(w, v, ws, pid, go) && v.ledger == w.ledger && v.lock == w.lock && v.files == w.files
    ensures pid in v.procs && v.procs[pid].pc == Return
    ensures Answered(v.procs[pid]) == match w.files.claimed[p.cur]
                                      case Good(text) => M.Reply.Ok(Item(p.cur, text))
                                      case Corrupt => M.Broken
  {
    v, ws := OneStep(w, pid, p, go);
  }

  /** A take that runs alone claims its item, if it is pending, and returns its
      content. */
  lemma TakeAlone(w: World, pid: Pid, id: Id, go: Choice) returns (v: World, ws: seq<World>)
    requires At(w, pid, Begun(Take(id))) && !go.fail
    ensures Leads(w, v, ws, pid, go) && v.ledger == w.ledger && pid in v.procs && v.procs[pid].pc == Return
    ensures TakesOne(w.files, v.files, id, Answered(v.procs[pid]))
  {
    v, ws := RenameAndRead(w, pid, Begun(Take(id)), go);
  }

  /** A take --next that has scanned pending/. */
  ghost predicate Scanned(fs: Files, q: Proc) {
    if fs.pending == map[] then q.pc == Return && q.outcome == Empty
    else
      && q.pc == Rename && q.call == TakeNext && q.got == []
      && q.todo != [] && q.todo[0] == Least(fs.pending.Keys)
  }

  lemma NextIsScanned(fs: Files, published: set<Id>)
    ensures Scanned(fs, AfterScan(Begun(TakeNext), Sorted(fs.pending.Keys), published))
    ensures Shaped(AfterScan(Begun(TakeNext), Sorted(fs.pending.Keys), published))
  {
    M.SnapshotFacts(fs.pending.Keys, Sorted(fs.pending.Keys));
  }

  /** A take --next that runs alone does what the program's does. */
  lemma TakeNextAlone(w: World, pid: Pid, go: Choice) returns (v: World, ws: seq<World>)
    requires At(w, pid, Begun(TakeNext)) && !go.fail
    ensures Leads(w, v, ws, pid, go) && v.ledger == w.ledger && pid in v.procs && v.procs[pid].pc == Return
    ensures M.TakesLeast(w.files, v.files, Answered(v.procs[pid]))
  {
    NextIsScanned(w.files, w.hist.pushed.Keys);
    v, ws := ScanOne(w, pid, Begun(TakeNext), go);
    if w.files.pending != map[] {
      var u, us := v, ws;
      v, ws := RenameAndRead(u, pid, u.procs[pid], go);
      Join(w, u, v, us, ws, pid, go);
      ws := us + ws[1..];
    }
  }

  lemma AckSecondLook(w: World, pid: Pid, p: Proc, go: Choice) returns (v: World, ws: seq<World>)
    requires At(w, pid, p) && p.pc == AckPending && p.call.Ack? && !go.fail && p.call.id !in w.files.claimed
    ensures Leads(w, v, ws, pid, go) && v.ledger == w.ledger && pid in v.procs && v.procs[pid].pc == Return
    ensures v.files == M.Acknowledged(w.files, p.call.id)
    ensures v.procs[pid].outcome == if p.call.id in w.files.pending then Ok else NotFound
  {
    v, ws := OneStep(w, pid, p, go);
  }

  /** An acknowledgement that runs alone does what the program's does. */
  lemma AckAlone(w: World, pid: Pid, id: Id, go: Choice) returns (v: World, ws: seq<World>)
    requires At(w, pid, Begun(Ack(id))) && !go.fail
    ensures Leads(w, v, ws, pid, go) && v.ledger == w.ledger && pid in v.procs && v.procs[pid].pc == Return
    ensures v.files == M.Acknowledged(w.files, id)
    ensures v.procs[pid].outcome == if id in w.files.claimed || id in w.files.pending then Ok else NotFound
  {
    v, ws := OneStep(w, pid, Begun(Ack(id)), go);
    if id !in w.files.claimed {
      var u, us := v, ws;
      v, ws := AckSecondLook(u, pid, u.procs[pid], go);
      Join(w, u, v, us, ws, pid, go);
      ws := us + ws[1..];
    }
  }

  // ---- Lost races and failures ----

  /** Losing an item to another call, before the rename or between it and the
      read: a take of that item ends, and any other call goes on with the next. */
  lemma LostRace(w: World, pid: Pid, c: Choice)
    requires Enabled(w, Advance(pid, c)) && !c.fail
    requires var p := w.procs[pid];
             || (p.pc == Rename && p.todo != [] && p.todo[0] !in w.files.pending
                 && (p.call.Receive? ==> |p.got| < Limit(p.call.limit)))
             || (p.pc == ReadBody && p.cur !in w.files.claimed)
    ensures var p, v := w.procs[pid], Next(w, Advance(pid, c));
            && v.files == w.files && v.ledger == w.ledger && pid in v.procs
            && var q := v.procs[pid];
               && q.got == p.got
               && (p.call.Take? ==> q.pc == Return && q.outcome == NotFound)
               && (!p.call.Take? ==> q.pc == Rename && q.todo == if p.pc == Rename then p.todo[1..] else p.todo)
  {
    var p := w.procs[pid];
    EffectOnCalls(w, pid, Plan(w, p, c).0, Plan(w, p, c).1);
  }

  /** Where an operation can fail and end its call. */
  predicate CanFail(p: Proc) {
    p.pc !in {Choose, CallHost, Rename, ReadItem, Return}
  }

  /** A failing operation ends its call with an error. It changes no file and no
      ledger, and what the call has claimed it still returns. */
  lemma FailedOperation(w: World, pid: Pid, c: Choice)
    requires Enabled(w, Advance(pid, c)) && c.fail && CanFail(w.procs[pid])
    ensures var v := Next(w, Advance(pid, c));
            && v == w.Set(pid, v.procs[pid])
            && v.procs[pid] == w.procs[pid].(pc := Return, outcome := OtherError)
  {
    var p := w.procs[pid];
    FailedPlan(w, p, c);
    assert w.procs[pid := p.Done(OtherError)][pid] == p.Done(OtherError);
  }

  lemma FailedPlan(w: World, p: Proc, c: Choice)
    requires Shaped(p) && c.fail && CanFail(p)
    ensures Plan(w, p, c) == (p.Done(OtherError), Nothing)
  {
  }
}
