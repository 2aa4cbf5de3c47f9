/** A flight never closes over a message it absorbed, and a notify never
    overlooks a published item, under any interleaving. */
module Wakes {
  import opened Order
  import opened MailFiles
  import opened Ledgers
  import opened Protocol
  import opened Conservation
  import opened Exclusion

  ghost predicate Published(w: World, id: Id) {
    id in w.hist.pushed && w.hist.pushed[id].Good?
  }

  ghost predicate Unread(w: World, id: Id) {
    id in w.files.pending && Published(w, id)
  }

  /** No id whose notify succeeded is still pending once a flight is closed,
      unless the call that closed it failed to read its file. */
  ghost predicate NoLostWake(w: World) {
    forall id | id in w.hist.notified ::
      Published(w, id) && (w.ledger.phase == Received ==> id !in w.files.pending || id in w.hist.overlooked)
  }

  predicate Scanned(p: Proc) {
    InLock(p) && p.pc != ReadLedger && p.pc != Scan
  }

  /** `base` holds every id whose notify had succeeded when pending/ was scanned. */
  ghost predicate Based(w: World, p: Proc) {
    && p.base <= w.hist.pushed.Keys
    && (Scanned(p) ==> w.hist.notified <= p.base)
  }

  /** A call has not lost sight of an id that was there to be scanned, or
      failed to read its file. */
  predicate Noted(p: Proc, id: Id) {
    id in p.missed || InSight(p, id)
  }

  /** Where a call stands with an id whose file it could read. */
  predicate InSight(p: Proc, id: Id) {
    match p.pc
    case ReadItem => id in p.todo || id in p.ids
    case ProbeClaimed => p.call.Notify? ==> id != p.call.item
    case ProbeDone => p.call.Notify? ==> id != p.call.item
    case WriteObserved => id in p.ids
    case Rename => p.call.Receive? ==> id in p.todo
    case ReadBody => p.call.Receive? ==> id in p.todo
    case WriteClosed => false
    case _ => HoldsList(p.pc) ==> id in p.ids
  }

  /** No unread item that was there to be scanned has been overlooked. */
  ghost predicate Covers(w: World, p: Proc) {
    forall id | id in p.base && Unread(w, id) :: Noted(p, id)
  }

  predicate HoldsList(pc: Pc) {
    pc == ReadItem || (Notifying(pc) && pc != ProbeClaimed && pc != ProbeDone)
  }

  ghost predicate ListsPublished(w: World, p: Proc) {
    HoldsList(p.pc) ==> forall i | 0 <= i < |p.ids| :: Published(w, p.ids[i])
  }

  /** What a notify that looked past pending/ has established. */
  ghost predicate Searched(w: World, p: Proc) {
    p.call.Notify? ==>
      && (p.pc == ProbeDone && Sought(w, p) ==> p.call.item in w.files.done)
      && (Succeeded(p) ==> Published(w, p.call.item) && (p.call.item in w.files.pending ==> w.ledger.phase != Received))
      && (p.pc == Return && p.outcome == NotFound ==> !Sought(w, p))
  }

  /** The item of a notify was there to be scanned, and readable. */
  ghost predicate Sought(w: World, p: Proc)
    requires p.call.Notify?
  {
    p.call.item in p.base && Published(w, p.call.item) && p.call.item !in p.missed
  }

  ghost predicate Tracks(w: World, p: Proc) {
    Based(w, p) && Covers(w, p) && ListsPublished(w, p) && Searched(w, p)
  }

  lemma InPending(w: World, id: Id)
    requires Conserved(w)
    ensures id in w.files.pending ==> id in w.hist.pushed && w.hist.pushed[id] == w.files.pending[id]
    ensures id in w.files.claimed ==> id in w.hist.pushed && w.hist.pushed[id] == w.files.claimed[id]
    ensures id in w.files.done ==> id in w.hist.pushed && w.hist.pushed[id] == w.files.done[id]
    ensures w.files.Readable(id) <==> Unread(w, id)
    ensures id in w.hist.pushed ==> id in w.files.pending || id in w.files.claimed || id in w.files.done
  {
    assert w.files.Lookup(id) == if id in w.hist.pushed then Some(w.hist.pushed[id]) else None;
  }

  /** What other steps may do while a call is between two operations. */
  ghost predicate Later(w: World, v: World) {
    && (forall id | id in w.hist.pushed :: id in v.hist.pushed && v.hist.pushed[id] == w.hist.pushed[id])
    && (forall id | id in w.hist.pushed && id in v.files.pending :: id in w.files.pending)
    && (forall id | id in w.files.done :: id in v.files.done)
  }

  lemma TracksStable(w: World, v: World, p: Proc)
    requires Shaped(p) && Tracks(w, p) && Later(w, v)
    requires InLock(p) ==> v.hist.notified == w.hist.notified
    requires Succeeded(p) ==> v.ledger == w.ledger
    ensures Tracks(v, p)
  {
  }

  lemma ListingCovers(w: World, q: Proc, c: Choice)
    requires Conserved(w) && Shaped(q) && Listing(q.pc) && Covers(w, q)
    ensures Covers(w, PlanListing(w, q, c).0)
  {
    if q.pc == ReadItem { ReadingCovers(w, q, c); }
    else if q.pc == Scan { ScanningCovers(w, q, c); }
    else { LockingCovers(w, q, c); }
  }

  lemma LockingCovers(w: World, q: Proc, c: Choice)
    requires Shaped(q) && (q.pc == Lock || q.pc == ReadLedger) && Covers(w, q)
    ensures Covers(w, PlanListing(w, q, c).0)
  {
  }

  lemma ReadingCovers(w: World, q: Proc, c: Choice)
    requires Conserved(w) && Shaped(q) && q.pc == ReadItem && Covers(w, q)
    ensures Covers(w, PlanListing(w, q, c).0)
  {
    var p := PlanListing(w, q, c).0;
    if q.todo != [] { assert q.todo == [q.todo[0]] + q.todo[1..]; }
    forall id | id in p.base && Unread(w, id)
      ensures Noted(p, id)
    {
      InPending(w, id);
      assert Noted(q, id);
    }
  }

  lemma ScanningCovers(w: World, q: Proc, c: Choice)
    requires Shaped(q) && q.pc == Scan
    ensures Covers(w, PlanListing(w, q, c).0)
  {
    if !c.fail { ScanNotes(w, q, Sorted(w.files.pending.Keys), w.hist.pushed.Keys); }
  }

  lemma ScanNotes(w: World, q: Proc, names: seq<Id>, published: set<Id>)
    requires Shaped(q) && q.pc == Scan && forall id :: id in names <==> id in w.files.pending
    ensures Covers(w, AfterScan(q, names, published))
  {
  }

  /** Past the listing a notify keeps its list and looks in one direction. */
  ghost predicate NotifyMove(q: Proc, p: Proc) {
    && p.base == q.base && p.missed == q.missed && p.ids == q.ids && p.call == q.call
    && (Notifying(p.pc) || p.pc == Return)
    && (HoldsList(p.pc) ==> HoldsList(q.pc))
    && (p.pc == ProbeDone ==> q.pc == ProbeClaimed)
    && p.pc != ProbeClaimed
  }

  lemma NotifyingMoves(w: World, q: Proc, c: Choice)
    requires Shaped(q) && Notifying(q.pc)
    ensures NotifyMove(q, PlanNotify(w, q, c).0)
  {
  }

  lemma NotifyMoveCovers(w: World, q: Proc, p: Proc)
    requires NotifyMove(q, p) && Notifying(q.pc) && Covers(w, q)
    ensures Covers(w, p)
  {
  }

  /** The claim loop drops an id from its list only with its file. */
  lemma RenameCovers(w: World, q: Proc, c: Choice)
    requires Shaped(q) && q.pc == Rename && Covers(w, q)
    ensures var (p, e) := PlanRename(w, q, c);
            forall id | id in p.base && Unread(w, id) && e != Claim(id) :: Noted(p, id)
  {
    if q.todo != [] { assert q.todo == [q.todo[0]] + q.todo[1..]; }
  }

  lemma ClaimingCovers(w: World, q: Proc, c: Choice)
    requires Shaped(q) && Claiming(q.pc) && Covers(w, q) && (q.pc == WriteObserved ==> q.todo == q.ids)
    ensures var (p, e) := PlanClaiming(w, q, c);
            forall id | id in p.base && Unread(w, id) && e != Claim(id) :: Noted(p, id)
  {
    if q.pc == Rename { RenameCovers(w, q, c); }
  }

  lemma PlanCovers(w: World, q: Proc, c: Choice)
    requires Conserved(w) && Shaped(q) && Covers(w, q) && (q.pc == WriteObserved ==> q.todo == q.ids)
    ensures var (p, e) := Plan(w, q, c);
            forall id | id in p.base && Unread(w, id) && e != Claim(id) :: Noted(p, id)
  {
    if Listing(q.pc) { ListingCovers(w, q, c); }
    else if Notifying(q.pc) { NotifyingMoves(w, q, c); NotifyMoveCovers(w, q, PlanNotify(w, q, c).0); }
    else if Claiming(q.pc) { ClaimingCovers(w, q, c); }
  }

  lemma ReadingLists(w: World, q: Proc, c: Choice)
    requires Conserved(w) && Shaped(q) && q.pc == ReadItem && ListsPublished(w, q)
    ensures ListsPublished(w, PlanListing(w, q, c).0)
  {
    if q.todo != [] { InPending(w, q.todo[0]); }
  }

  lemma ScanListsNothing(w: World, q: Proc, c: Choice)
    requires Shaped(q) && Listing(q.pc) && q.pc != ReadItem
    ensures var p := PlanListing(w, q, c).0; HoldsList(p.pc) ==> p.ids == []
  {
  }

  lemma PlanLists(w: World, q: Proc, c: Choice)
    requires Conserved(w) && Shaped(q) && ListsPublished(w, q)
    ensures ListsPublished(w, Plan(w, q, c).0)
  {
    if q.pc == ReadItem { ReadingLists(w, q, c); }
    else if Listing(q.pc) { ScanListsNothing(w, q, c); }
    else if Notifying(q.pc) { NotifyingMoves(w, q, c); }
    else if Claiming(q.pc) { ClaimingStays(w, q, c); }
  }

  lemma PlanBased(w: World, q: Proc, c: Choice)
    requires NoLostWake(w) && Shaped(q) && Based(w, q)
    ensures Based(w, Plan(w, q, c).0)
  {
    if Listing(q.pc) { ListingBased(w, q, c); }
    else if Notifying(q.pc) { NotifyingMoves(w, q, c); }
    else if Claiming(q.pc) { ClaimingStays(w, q, c); }
  }

  lemma ListingBased(w: World, q: Proc, c: Choice)
    requires NoLostWake(w) && Shaped(q) && Listing(q.pc) && Based(w, q)
    ensures Based(w, PlanListing(w, q, c).0)
  {
  }

  lemma CoversAt(w: World, p: Proc, id: Id)
    requires Covers(w, p)
    ensures id in p.base && Unread(w, id) ==> Noted(p, id)
  {
  }

  lemma ProbeSearches(w: World, q: Proc, c: Choice)
    requires Conserved(w) && Shaped(q) && (q.pc == ProbeClaimed || q.pc == ProbeDone)
    requires Covers(w, q) && Searched(w, q)
    ensures Searched(w, PlanNotify(w, q, c).0)
  {
    InPending(w, q.call.item);
    CoversAt(w, q, q.call.item);
  }

  lemma WriteSearches(w: World, q: Proc, c: Choice)
    requires Shaped(q) && Notifying(q.pc) && q.pc != ProbeClaimed && q.pc != ProbeDone
    requires ListsPublished(w, q) && View(q, w.ledger, w.clock)
    ensures var (p, e) := PlanNotify(w, q, c);
            && Searched(w.(ledger := LedgerAfter(w.ledger, e)), p)
            && (e.Save? ==> e.ledger.phase != Received)
  {
    if q.pc != ReadAddress {
      var i :| 0 <= i < |q.ids| && q.ids[i] == q.call.item;
    }
  }

  lemma PlanSearches(w: World, q: Proc, c: Choice)
    requires Conserved(w) && Shaped(q) && Tracks(w, q) && (InLock(q) ==> View(q, w.ledger, w.clock)) && q.pc != Return
    ensures var (p, e) := Plan(w, q, c);
            && Searched(w.(ledger := LedgerAfter(w.ledger, e)), p)
            && (q.call.Notify? && e.Save? ==> e.ledger.phase != Received)
  {
    if q.pc == ProbeClaimed || q.pc == ProbeDone { ProbeSearches(w, q, c); }
    else if Notifying(q.pc) { WriteSearches(w, q, c); }
    else { OutsideNotifying(w, q, c); }
  }

  /** A flight is closed only when every id notified so far has left pending/,
      save those whose file the closing call failed to read. */
  lemma ClosingIsSafe(w: World, q: Proc, c: Choice)
    requires NoLostWake(w) && Shaped(q) && Tracks(w, q) && (InLock(q) ==> View(q, w.ledger, w.clock))
    requires var e := Plan(w, q, c).1; e.Save? && e.ledger.phase == Received && q.call.Receive?
    ensures forall id | id in w.hist.notified :: id !in w.files.pending || id in q.missed
  {
    forall id | id in w.hist.notified
      ensures id !in w.files.pending || id in q.missed
    {
      assert Published(w, id);
      CoversAt(w, q, id);
    }
  }

  predicate Closes(e: Effect)
    requires e.Save?
  {
    e.kind == Closing || (e.kind == Observing && e.ledger.phase == Received)
  }

  lemma EffectIsLater(w: World, pid: Pid, p: Proc, e: Effect)
    requires Conserved(w) && Possible(w, pid, e)
    ensures var v := Apply(w, pid, p, e);
            && Later(w, v)
            && v.hist.pushed == w.hist.pushed
            && v.hist.overlooked == (if e.Save? && Closes(e) then p.missed else w.hist.overlooked)
            && (e.Claim? ==> v.files.pending.Keys == w.files.pending.Keys - {e.id})
            && v.hist.notified == w.hist.notified + (if e.Leave? && Succeeded(p.(pc := Return)) then
                {p.call.item} else {})
  {
  }

  /** Who writes a closed flight, and what such a step keeps. */
  lemma ClosingStep(w: World, q: Proc, c: Choice)
    requires Shaped(q) && Tracks(w, q) && (InLock(q) ==> View(q, w.ledger, w.clock)) && q.pc != Return
    requires Conserved(w)
    ensures var (p, e) := Plan(w, q, c);
            && (e.Save? && e.ledger.phase == Received ==> q.call.Receive? && Closes(e) && p.missed == q.missed)
            && (e.Save? && Closes(e) ==> e.ledger.phase == Received)
  {
    PlanSearches(w, q, c);
    if Claiming(q.pc) { ClaimingStays(w, q, c); } else if !Notifying(q.pc) { OutsideNotifying(w, q, c); }
  }

  lemma OwnTracks(w: World, v: World, pid: Pid, c: Choice)
    requires Conserved(w) && Disciplined(w) && NoLostWake(w) && pid in w.procs && w.procs[pid].pc != Return
    requires Tracks(w, w.procs[pid])
    requires var (p, e) := Plan(w, w.procs[pid], c); Possible(w, pid, e) && v == Apply(w, pid, p, e)
    ensures Tracks(v, Plan(w, w.procs[pid], c).0)
    ensures NoLostWake(v)
  {
    var q := w.procs[pid];
    var (p, e) := Plan(w, q, c);
    OnlyReturnLeaves(w, q, c);
    EffectIsLater(w, pid, p, e);
    EffectOnLock(w, pid, p, e);
    PlanIsLockStep(w, q, c);
    PlanCovers(w, q, c);
    PlanLists(w, q, c);
    PlanBased(w, q, c);
    PlanSearches(w, q, c);
    ClosingStep(w, q, c);
    if e.Save? && e.ledger.phase == Received { ClosingIsSafe(w, q, c); }
    StepTracks(w, v, q, p, e);
  }

  /** Facts about the step carried over to the world after it. */
  lemma StepTracks(w: World, v: World, q: Proc, p: Proc, e: Effect)
    requires Later(w, v) && v.hist.pushed == w.hist.pushed && v.hist.notified == w.hist.notified
    requires v.ledger == LedgerAfter(w.ledger, e)
    requires e.Claim? ==> e.id !in v.files.pending
    requires Based(w, p) && ListsPublished(w, p) && Searched(w.(ledger := v.ledger), p)
    requires forall id | id in p.base && Unread(w, id) && e != Claim(id) :: Noted(p, id)
    requires NoLostWake(w)
    requires e.Save? && e.ledger.phase == Received ==>
               v.hist.overlooked == p.missed && forall id | id in w.hist.notified ::
                 id !in w.files.pending || id in p.missed
    requires !(e.Save? && e.ledger.phase == Received) ==> v.ledger.phase == Received ==>
               w.ledger.phase == Received && v.hist.overlooked == w.hist.overlooked
    ensures Tracks(v, p) && NoLostWake(v)
  {
    forall id | id in p.base && Unread(v, id)
      ensures Noted(p, id)
    {
      assert Unread(w, id);
    }
  }

  lemma LeaveIsSafe(w: World, pid: Pid)
    requires Conserved(w) && NoLostWake(w) && pid in w.procs && w.procs[pid].pc == Return
    requires Tracks(w, w.procs[pid])
    ensures NoLostWake(Apply(w, pid, w.procs[pid], Leave))
  {
  }

  ghost predicate AllTrack(w: World) {
    NoLostWake(w) && forall pid | pid in w.procs :: Tracks(w, w.procs[pid])
  }

  /** A step of one call leaves what the others track intact: the successes
      and the ledger they depend on change only under the lock. */
  lemma OthersTrack(w: World, pid: Pid, p: Proc, e: Effect, other: Pid)
    requires Conserved(w) && Disciplined(w) && AllTrack(w) && pid in w.procs && other in w.procs && other != pid
    requires Possible(w, pid, e) && LockStep(w.procs[pid], p, e) && (e.Leave? ==> p == w.procs[pid] && p.pc == Return)
    ensures Tracks(Apply(w, pid, p, e), w.procs[other])
  {
    EffectIsLater(w, pid, p, e);
    EffectOnLock(w, pid, p, e);
    TracksStable(w, Apply(w, pid, p, e), w.procs[other]);
  }

  lemma AllOthersTrack(w: World, pid: Pid, p: Proc, e: Effect)
    requires Conserved(w) && Disciplined(w) && AllTrack(w) && pid in w.procs
    requires Possible(w, pid, e) && LockStep(w.procs[pid], p, e) && (e.Leave? ==> p == w.procs[pid] && p.pc == Return)
    ensures forall other | other in w.procs && other != pid :: Tracks(Apply(w, pid, p, e), w.procs[other])
    ensures Apply(w, pid, p, e).procs == if e.Leave? then w.procs - {pid} else w.procs[pid := p]
  {
    EffectOnCalls(w, pid, p, e);
    forall other | other in w.procs && other != pid
      ensures Tracks(Apply(w, pid, p, e), w.procs[other])
    {
      OthersTrack(w, pid, p, e, other);
    }
  }

  lemma CallTracks(w: World, pid: Pid, c: Choice)
    requires Conserved(w) && Disciplined(w) && AllTrack(w) && Enabled(w, Advance(pid, c))
    ensures AllTrack(Next(w, Advance(pid, c)))
  {
    var v := NextIsApply(w, pid, c);
    if w.procs[pid].pc == Return { LeaveTracks(w, pid); } else { MoveTracks(w, pid, c, v); }
  }

  lemma NextIsApply(w: World, pid: Pid, c: Choice) returns (v: World)
    requires Enabled(w, Advance(pid, c))
    ensures var (p, e) := Plan(w, w.procs[pid], c); v == Next(w, Advance(pid, c)) == Apply(w, pid, p, e)
    ensures w.procs[pid].pc == Return ==> v == Apply(w, pid, w.procs[pid], Leave)
  {
    v := Next(w, Advance(pid, c));
  }

  lemma LeaveTracks(w: World, pid: Pid)
    requires Conserved(w) && Disciplined(w) && AllTrack(w) && pid in w.procs && w.procs[pid].pc == Return
    ensures AllTrack(Apply(w, pid, w.procs[pid], Leave))
  {
    LeaveIsSafe(w, pid);
    EffectTracks(w, pid, w.procs[pid], Leave);
  }

  lemma MoveTracks(w: World, pid: Pid, c: Choice, v: World)
    requires Conserved(w) && Disciplined(w) && AllTrack(w) && pid in w.procs && w.procs[pid].pc != Return
    requires var (p, e) := Plan(w, w.procs[pid], c); Possible(w, pid, e) && v == Apply(w, pid, p, e)
    ensures AllTrack(v)
  {
    var (p, e) := Plan(w, w.procs[pid], c);
    OnlyReturnLeaves(w, w.procs[pid], c);
    PlanIsLockStep(w, w.procs[pid], c);
    OwnTracks(w, v, pid, c);
    EffectTracks(w, pid, p, e);
  }

  lemma EffectTracks(w: World, pid: Pid, p: Proc, e: Effect)
    requires Conserved(w) && Disciplined(w) && AllTrack(w) && pid in w.procs
    requires Possible(w, pid, e) && LockStep(w.procs[pid], p, e) && (e.Leave? ==> p == w.procs[pid] && p.pc == Return)
    requires NoLostWake(Apply(w, pid, p, e)) && (!e.Leave? ==> Tracks(Apply(w, pid, p, e), p))
    ensures AllTrack(Apply(w, pid, p, e))
  {
    AllOthersTrack(w, pid, p, e);
    OneMovesAllTrack(w, Apply(w, pid, p, e), pid, p, e);
  }

  lemma OneMovesAllTrack(w: World, v: World, pid: Pid, p: Proc, e: Effect)
    requires NoLostWake(v) && v.procs == (if e.Leave? then w.procs - {pid} else w.procs[pid := p])
    requires forall other | other in w.procs && other != pid :: Tracks(v, w.procs[other])
    requires !e.Leave? ==> Tracks(v, p)
    ensures AllTrack(v)
  {
  }

  lemma EnvironmentTracks(w: World, a: Action)
    requires Conserved(w) && Disciplined(w) && AllTrack(w) && Enabled(w, a) && !a.Advance?
    ensures AllTrack(Next(w, a))
  {
    var v := Next(w, a);
    assert Later(w, v);
    forall pid | pid in v.procs
      ensures Tracks(v, v.procs[pid])
    {
      if !(a.Start? && pid == a.pid) { TracksStable(w, v, w.procs[pid]); }
    }
  }

  lemma {:induction false} CallsTrack(ws: seq<World>, acts: seq<Action>, k: nat)
    requires IsRun(ws, acts) && k < |ws|
    ensures Conserved(ws[k]) && Disciplined(ws[k]) && AllTrack(ws[k])
  {
    if k > 0 {
      CallsTrack(ws, acts, k - 1);
      StepConserves(ws[k - 1], acts[k - 1]);
      StepDisciplined(ws[k - 1], acts[k - 1]);
      if acts[k - 1].Advance? {
        CallTracks(ws[k - 1], acts[k - 1].pid, acts[k - 1].choice);
      } else {
        EnvironmentTracks(ws[k - 1], acts[k - 1]);
      }
    }
  }

  /** No lost wake: whenever the ledger says `received`, no id still pending
      has had a notify return success, unless the call that closed the flight
      failed to read its file. It holds even while the lock is taken, for every
      mix of receivers, host answers, crashes and raw consumers. */
  lemma ClosedFlightMissesNothing(ws: seq<World>, acts: seq<Action>, k: nat, id: Id)
    requires IsRun(ws, acts) && k < |ws|
    requires ws[k].ledger.phase == Received && id in ws[k].hist.notified
    ensures id in ws[k].files.claimed || id in ws[k].files.done
            || (id in ws[k].files.pending && id in ws[k].hist.overlooked)
  {
    CallsTrack(ws, acts, k);
    InPending(ws[k], id);
  }

  /** Once a call has begun, its base will hold what was published before. */
  ghost predicate WillSee(p: Proc, item: Id) {
    || p.pc == Lock || p.pc == ReadLedger || p.pc == Scan
    || item in p.base
    || (p.pc == Return && p.outcome != NotFound)
  }

  lemma PlanSees(w: World, q: Proc, c: Choice, item: Id)
    requires Shaped(q) && q.call.Notify? && WillSee(q, item) && item in w.hist.pushed && q.pc != Return
    ensures WillSee(Plan(w, q, c).0, item)
  {
  }

  lemma EffectKeepsHistory(w: World, pid: Pid, p: Proc, e: Effect)
    requires Possible(w, pid, e)
    ensures Apply(w, pid, p, e).hist.pids == w.hist.pids && Apply(w, pid, p, e).hist.pushed == w.hist.pushed
  {
  }

  lemma StepKeepsHistory(w: World, a: Action)
    requires Enabled(w, a)
    ensures w.hist.pids <= Next(w, a).hist.pids
    ensures forall id | id in w.hist.pushed :: id in Next(w, a).hist.pushed
              && Next(w, a).hist.pushed[id] == w.hist.pushed[id]
  {
    if a.Advance? {
      var (p, e) := Plan(w, w.procs[a.pid], a.choice);
      EffectKeepsHistory(w, a.pid, p, e);
    }
  }

  lemma {:induction false} HistoryGrows(ws: seq<World>, acts: seq<Action>, i: nat, k: nat)
    requires IsRun(ws, acts) && i <= k < |ws|
    ensures ws[i].hist.pids <= ws[k].hist.pids
    ensures forall id | id in ws[i].hist.pushed :: id in ws[k].hist.pushed
              && ws[k].hist.pushed[id] == ws[i].hist.pushed[id]
    decreases k
  {
    if i < k {
      HistoryGrows(ws, acts, i, k - 1);
      StepKeepsHistory(ws[k - 1], acts[k - 1]);
    }
  }

  lemma StepSees(w: World, a: Action, pid: Pid, item: Id)
    requires Enabled(w, a) && pid in w.procs && pid in w.hist.pids && pid in Next(w, a).procs
    requires w.procs[pid].call == Notify(item) && WillSee(w.procs[pid], item) && item in w.hist.pushed
    ensures Next(w, a).procs[pid].call == Notify(item) && WillSee(Next(w, a).procs[pid], item)
  {
    CallAfter(w, a, pid);
    if a.Advance? && a.pid == pid {
      PlanIsLockStep(w, w.procs[pid], a.choice);
      PlanSees(w, w.procs[pid], a.choice, item);
    }
  }

  lemma {:induction false} NotifyWillSee(ws: seq<World>, acts: seq<Action>, i: nat, k: nat, pid: Pid, item: Id)
    requires IsRun(ws, acts) && i < k < |ws| && acts[i] == Start(pid, Notify(item))
    requires item in ws[i].hist.pushed && pid in ws[k].procs
    ensures ws[k].procs[pid].call == Notify(item) && WillSee(ws[k].procs[pid], item)
    decreases k
  {
    CallAfter(ws[k - 1], acts[k - 1], pid);
    if k > i + 1 {
      HistoryGrows(ws, acts, i + 1, k - 1);
      HistoryGrows(ws, acts, i, k - 1);
      NotifyWillSee(ws, acts, i, k - 1, pid, item);
      StepSees(ws[k - 1], acts[k - 1], pid, item);
    }
  }

  /** Looking in pending/, then claimed/, then done/ never misses an item:
      notifying a readable id that was published before the call began does
      not report `not found`, however others claim and finish it meanwhile,
      unless the call's own read of its file failed. */
  lemma ForwardScanIsSound(ws: seq<World>, acts: seq<Action>, i: nat, k: nat, pid: Pid, item: Id)
    requires IsRun(ws, acts) && i < k < |ws| && acts[i] == Start(pid, Notify(item))
    requires item in ws[i].hist.pushed && ws[i].hist.pushed[item].Good?
    requires pid in ws[k].procs && ws[k].procs[pid].pc == Return
    ensures ws[k].procs[pid].outcome == NotFound ==> item in ws[k].procs[pid].missed
  {
    CallsTrack(ws, acts, k);
    NotifyWillSee(ws, acts, i, k, pid, item);
    HistoryGrows(ws, acts, i, k);
    assert Tracks(ws[k], ws[k].procs[pid]);
  }
}
