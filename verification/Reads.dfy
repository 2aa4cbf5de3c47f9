/** Reads that fail. A listing leaves out a file it cannot read, also when the
    file is good and the error passes. Everything the other modules call missed,
    overlooked or skipped goes back to such a read. */
module Reads {
  import opened MailFiles
  import opened Ledgers
  import opened Protocol
  import opened Conservation
  import opened Wakes
  import opened LegacyDedup

  /** Step j is a read, by the listing of call pid, of a readable item, and it
      fails. */
  ghost predicate ReadFails(w: World, a: Action, pid: Pid, id: Id) {
    && a.Advance? && a.pid == pid && a.choice.fail
    && pid in w.procs && w.procs[pid].pc == ReadItem
    && w.procs[pid].todo != [] && w.procs[pid].todo[0] == id
    && w.files.Readable(id)
  }

  ghost predicate FailedBefore(ws: seq<World>, acts: seq<Action>, k: nat, pid: Pid, id: Id)
    requires k <= |ws| && k <= |acts|
  {
    exists j :: 0 <= j < k && ReadFails(ws[j], acts[j], pid, id)
  }

  /** Only a failing read adds to what a call has missed. */
  lemma MissedStep(w: World, q: Proc, c: Choice)
    requires Shaped(q) && q.pc != Return
    ensures Plan(w, q, c).0.missed <=
            q.missed + (if q.pc == ReadItem && q.todo != [] && c.fail && w.files.Readable(q.todo[0]) then
              {q.todo[0]} else {})
    ensures Plan(w, q, c).1.Hand? ==> Plan(w, q, c).1.sub.skipped == q.missed
  {
    if Notifying(q.pc) {
      NotifyingMoves(w, q, c);
      HandsMissed(w, q, c);
    } else {
      OutsideNotifying(w, q, c);
      if Claiming(q.pc) { ClaimingStays(w, q, c); }
    }
  }

  lemma HandsMissed(w: World, q: Proc, c: Choice)
    requires Shaped(q) && Notifying(q.pc)
    ensures PlanNotify(w, q, c).1.Hand? ==> PlanNotify(w, q, c).1.sub.skipped == q.missed
  {
  }

  /** What is missed in the histories of the calls and of the mailbox. */
  ghost predicate Missed(w: World, pid: Pid, id: Id) {
    pid in w.procs && id in w.procs[pid].missed
  }

  ghost predicate Lost(w: World, id: Id) {
    id in w.hist.overlooked || exists n :: 0 <= n < |w.hist.handed| && id in w.hist.handed[n].skipped
  }

  lemma LostStep(w: World, a: Action, id: Id)
    requires Enabled(w, a) && Lost(Next(w, a), id)
    ensures Lost(w, id) || (a.Advance? && (Missed(w, a.pid, id) || Missed(Next(w, a), a.pid, id)))
  {
    if !a.Advance? { LostElsewhere(w, a, id); }
    else if w.procs[a.pid].pc == Return { LostReturn(w, a.pid, a.choice, id); }
    else { LostAdvance(w, a.pid, a.choice, id); }
  }

  lemma LostElsewhere(w: World, a: Action, id: Id)
    requires Enabled(w, a) && !a.Advance?
    ensures Lost(Next(w, a), id) == Lost(w, id)
  {
  }

  lemma LostReturn(w: World, pid: Pid, c: Choice, id: Id)
    requires Enabled(w, Advance(pid, c)) && w.procs[pid].pc == Return
    ensures Lost(Next(w, Advance(pid, c)), id) == Lost(w, id)
  {
    ReturnStep(w, pid, c);
    LeavingLosesNothing(w, pid, w.procs[pid], id);
  }

  lemma LeavingLosesNothing(w: World, pid: Pid, p: Proc, id: Id)
    ensures Lost(Apply(w, pid, p, Leave), id) == Lost(w, id)
  {
  }

  lemma LostAdvance(w: World, pid: Pid, c: Choice, id: Id)
    requires Enabled(w, Advance(pid, c)) && w.procs[pid].pc != Return && Lost(Next(w, Advance(pid, c)), id)
    ensures Lost(w, id) || Missed(w, pid, id) || Missed(Next(w, Advance(pid, c)), pid, id)
  {
    var (p, e) := Plan(w, w.procs[pid], c);
    MissedStep(w, w.procs[pid], c);
    OnlyReturnLeaves(w, w.procs[pid], c);
    EffectOnLost(w, pid, p, e, id);
  }

  lemma EffectOnLost(w: World, pid: Pid, p: Proc, e: Effect, id: Id)
    requires Possible(w, pid, e) && Lost(Apply(w, pid, p, e), id) && !e.Leave?
    ensures Lost(w, id) || id in p.missed || (e.Hand? && id in e.sub.skipped)
    ensures pid in Apply(w, pid, p, e).procs && Apply(w, pid, p, e).procs[pid] == p
  {
    var v := Apply(w, pid, p, e);
    if id !in v.hist.overlooked {
      var n :| 0 <= n < |v.hist.handed| && id in v.hist.handed[n].skipped;
      if n < |w.hist.handed| { assert w.hist.handed[n].skipped == v.hist.handed[n].skipped; }
    }
  }

  /** What a call has missed, it failed to read; what is on record as lost, some
      call failed to read. */
  lemma {:induction false} MissedReadsFailed(ws: seq<World>, acts: seq<Action>, k: nat)
    requires IsRun(ws, acts) && k < |ws|
    ensures forall pid, id | Missed(ws[k], pid, id) :: FailedBefore(ws, acts, k, pid, id)
    ensures forall id | Lost(ws[k], id) :: exists pid :: FailedBefore(ws, acts, k, pid, id)
  {
    if k > 0 {
      MissedReadsFailed(ws, acts, k - 1);
      var w, a := ws[k - 1], acts[k - 1];
      forall pid, id | Missed(ws[k], pid, id)
        ensures FailedBefore(ws, acts, k, pid, id)
      {
        MissedBefore(ws, acts, k, pid, id);
      }
      forall id | Lost(ws[k], id)
        ensures exists pid :: FailedBefore(ws, acts, k, pid, id)
      {
        LostStep(w, a, id);
        if Lost(w, id) {
          var pid :| FailedBefore(ws, acts, k - 1, pid, id);
          assert FailedBefore(ws, acts, k, pid, id);
        } else if Missed(w, a.pid, id) {
          assert FailedBefore(ws, acts, k - 1, a.pid, id);
          assert FailedBefore(ws, acts, k, a.pid, id);
        }
      }
    }
  }

  lemma MissedBefore(ws: seq<World>, acts: seq<Action>, k: nat, pid: Pid, id: Id)
    requires IsRun(ws, acts) && 0 < k < |ws| && Missed(ws[k], pid, id)
    requires Missed(ws[k - 1], pid, id) ==> FailedBefore(ws, acts, k - 1, pid, id)
    ensures FailedBefore(ws, acts, k, pid, id)
  {
    var w, a := ws[k - 1], acts[k - 1];
    CallAfter(w, a, pid);
    if a.Advance? && a.pid == pid { MissedStep(w, w.procs[pid], a.choice); }
    if Missed(w, pid, id) {
      var j :| 0 <= j < k - 1 && ReadFails(ws[j], acts[j], pid, id);
    } else {
      assert ReadFails(w, a, pid, id);
    }
  }

  ghost predicate NoReadFails(ws: seq<World>, acts: seq<Action>, id: Id)
    requires |acts| <= |ws|
  {
    forall j, pid | 0 <= j < |acts| :: !ReadFails(ws[j], acts[j], pid, id)
  }

  /** No lost wake, for an item no listing failed to read. */
  lemma ReadWakesAreNotLost(ws: seq<World>, acts: seq<Action>, k: nat, id: Id)
    requires IsRun(ws, acts) && k < |ws| && NoReadFails(ws, acts, id)
    requires ws[k].ledger.phase == Received && id in ws[k].hist.notified
    ensures id in ws[k].files.claimed || id in ws[k].files.done
  {
    ClosedFlightMissesNothing(ws, acts, k, id);
    MissedReadsFailed(ws, acts, k);
    if id in ws[k].hist.overlooked { assert Lost(ws[k], id); }
  }

  /** Notify misses an item only if its own listing failed to read it. */
  lemma MissingMeansUnread(ws: seq<World>, acts: seq<Action>, i: nat, k: nat, pid: Pid, item: Id)
    requires IsRun(ws, acts) && i < k < |ws| && acts[i] == Start(pid, Notify(item))
    requires item in ws[i].hist.pushed && ws[i].hist.pushed[item].Good?
    requires pid in ws[k].procs && ws[k].procs[pid].pc == Return && ws[k].procs[pid].outcome == NotFound
    ensures FailedBefore(ws, acts, k, pid, item)
  {
    ForwardScanIsSound(ws, acts, i, k, pid, item);
    MissedReadsFailed(ws, acts, k);
    assert Missed(ws[k], pid, item);
  }

  /** What a notify that does not list its item finds at its two looks. */
  lemma ProbeStep(w: World, pid: Pid, c: Choice, item: Id)
    requires Enabled(w, Advance(pid, c)) && !c.fail && w.procs[pid].call == Notify(item)
    ensures var v := Next(w, Advance(pid, c));
            && (w.procs[pid].pc == ProbeClaimed ==>
                  pid in v.procs && (v.procs[pid].pc == ProbeDone <==> item !in w.files.claimed))
            && (w.procs[pid].pc == ProbeDone ==>
                  pid in v.procs && v.procs[pid].pc == Return
                  && (v.procs[pid].outcome == NotFound <==> item !in w.files.done))
  {
  }

  /** A notify that goes on to look in claimed/ and done/ reports a readable
      published item missing exactly when it was pending at the first look and
      is not done at the second. */
  lemma NotifyMissesExactly(ws: seq<World>, acts: seq<Action>, i: nat, k: nat, pid: Pid, item: Id)
    requires IsRun(ws, acts) && i < k < |acts| && acts[i].Advance? && acts[k].Advance?
    requires acts[i].pid == pid && acts[k].pid == pid && !acts[i].choice.fail && !acts[k].choice.fail
    requires ws[i].procs[pid].call == Notify(item) && ws[i].procs[pid].pc == ProbeClaimed
    requires ws[k].procs[pid].call == Notify(item) && ws[k].procs[pid].pc == ProbeDone
    requires item in ws[i].hist.pushed && item !in ws[i].files.claimed
    ensures pid in ws[k + 1].procs && ws[k + 1].procs[pid].pc == Return
    ensures ws[k + 1].procs[pid].outcome == NotFound <==>
              ws[i].files.StageOf(item) == Pending && ws[k].files.StageOf(item) != Done
  {
    ProbeStep(ws[k], pid, acts[k].choice, item);
    BodiesAreConserved(ws, acts, i, k);
    InPending(ws[i], item);
    InPending(ws[k], item);
    assert ws[i].files.StageOf(item).Rank() <= ws[k].files.StageOf(item).Rank();
    assert ws[k].files.Lookup(item) == ws[i].files.Lookup(item);
  }

  /** Legacy dedup for an item no listing failed to read: once covered, it never
      causes a host call again. */
  lemma ReadIdsAreNotResubmitted(ws: seq<World>, acts: seq<Action>, k: nat, m: nat, n: nat)
    requires LegacyRun(ws, acts) && k < |ws| && m < n < |ws[k].hist.handed|
    requires NoReadFails(ws, acts, ws[k].hist.handed[n].item)
    ensures ws[k].hist.handed[n].item !in ws[k].hist.handed[m].ids
  {
    var handed := ws[k].hist.handed;
    CoveredIdsAreNotResubmitted(ws, acts, k);
    MissedReadsFailed(ws, acts, k);
    assert handed[n].item in handed[m].ids ==> Skipped(handed, m, n, handed[n].item);
    assert Skipped(handed, m, n, handed[n].item) ==> Lost(ws[k], handed[n].item);
  }
}
