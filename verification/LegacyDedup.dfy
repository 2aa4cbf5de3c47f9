/** Receivers that never advertise protocol 2: an id covered by an accepted
    notification never causes a second submission. */
module LegacyDedup {
  import opened MailFiles
  import opened Ledgers
  import opened Protocol
  import opened Conservation
  import opened Exclusion
  import opened Wakes
  import opened Identities
  import opened Attempts

  /** A run whose address is never at protocol 2 and whose attempts all end
      queued or written, with their receipt persisted. */
  ghost predicate LegacyRun(ws: seq<World>, acts: seq<Action>) {
    && IsRun(ws, acts)
    && (forall k | 0 <= k < |ws| :: ws[k].address != Some(2))
    && (forall k | 0 <= k < |acts| :: Settles(ws[k], acts[k]))
  }

  ghost predicate Settles(w: World, a: Action) {
    && (a.Advance? ==>
          && (a.choice.answer == AnsQueued || a.choice.answer == AnsWritten)
          && (a.pid in w.procs && w.procs[a.pid].pc == WriteReceipt ==> !a.choice.fail))
    && (a.Crash? && a.pid in w.procs ==> !Attempting(w.procs[a.pid].pc))
  }

  predicate Attempting(pc: Pc) { pc == CallHost || pc == WriteReceipt }

  ghost predicate HolderAt(w: World, pc: Pc) {
    w.lock.Some? && w.lock.value in w.procs && w.procs[w.lock.value].pc == pc
  }

  /** An id some accepted notification covered, and none after it failed to
      read. */
  ghost predicate Covered(w: World, id: Id) {
    exists n :: CoveredSince(w.hist.handed, n, id)
  }

  predicate CoveredSince(handed: seq<Submission>, n: int, id: Id) {
    && 0 <= n < |handed| && handed[n].settled && id in handed[n].ids
    && (forall j | n < j < |handed| && handed[j].settled :: id !in handed[j].skipped)
  }

  ghost predicate LegacyLedger(w: World) {
    && w.ledger.protocol == 0 && !w.ledger.coalescing
    && w.ledger.phase in {Blank, Submitting, Queued, Written}
    && (w.ledger.phase == Blank ==> w.hist.handed == [])
    && Held(w)
    && (forall id | Covered(w, id) :: Published(w, id) && (id in w.files.pending ==> id in w.ledger.notified))
  }

  ghost predicate LegacyCall(w: World, p: Proc) {
    && (p.pc in {Choose, WriteSubmitting, CallHost, WriteReceipt} ==> !p.compatible)
    && (Scanned(p) ==> forall id | Covered(w, id) :: id in p.base)
    && (p.pc == ReadItem || p.pc == ReadAddress || p.pc == Choose ==>
          forall i | 0 <= i < |p.ids| && Covered(w, p.ids[i]) :: p.ids[i] in w.ledger.notified)
    && (p.call.Notify? && (p.pc == WriteSubmitting || p.pc == CallHost) ==> !Covered(w, p.call.item))
    && (p.pc == WriteReceipt ==>
          && p.st.phase in {Queued, Written} && p.st.notified == p.ids
          && p.st.protocol == 0 && !p.st.coalescing
          && w.hist.handed != []
          && w.hist.handed[|w.hist.handed| - 1].ids == p.ids
          && w.hist.handed[|w.hist.handed| - 1].skipped == p.missed)
  }

  /** No host call was made for an id that an earlier call had covered, unless
      the listing of a call between them failed to read it. */
  ghost predicate NoRepeat(handed: seq<Submission>) {
    forall m, n | 0 <= m < n < |handed| && handed[n].item in handed[m].ids :: Skipped(handed, m, n, handed[n].item)
  }

  predicate Skipped(handed: seq<Submission>, m: int, n: int, id: Id)
    requires 0 <= m < n <= |handed|
  {
    exists j :: m < j < n && id in handed[j].skipped
  }

  ghost predicate Legacy(w: World) {
    && LegacyLedger(w)
    && NoRepeat(w.hist.handed)
    && (forall pid | pid in w.procs :: LegacyCall(w, w.procs[pid]))
  }

  lemma ReadItemIsLegacy(w: World, q: Proc, c: Choice)
    requires Conserved(w) && LegacyLedger(w) && LegacyCall(w, q) && Shaped(q) && Listing(q.pc)
    ensures LegacyCall(w, PlanListing(w, q, c).0)
  {
    if q.pc == ReadItem && q.todo != [] { InPending(w, q.todo[0]); }
    if q.pc == Scan { ScanIsLegacy(w, q, c); }
  }

  lemma ScanIsLegacy(w: World, q: Proc, c: Choice)
    requires LegacyLedger(w) && Shaped(q) && q.pc == Scan
    ensures LegacyCall(w, PlanListing(w, q, c).0)
  {
    var p := PlanListing(w, q, c).0;
    assert p.pc == ReadItem ==> p.ids == [] && p.base == w.hist.pushed.Keys;
    forall id | Covered(w, id)
      ensures id in w.hist.pushed
    {
      assert Published(w, id);
    }
  }

  lemma ChooseIsLegacy(w: World, q: Proc, c: Choice)
    requires LegacyLedger(w) && LegacyCall(w, q) && Shaped(q) && q.pc == Choose && View(q, w.ledger, w.clock)
    requires w.lock.Some? && w.lock.value in w.procs && w.procs[w.lock.value] == q
    ensures LegacyCall(w, PlanChoice(w, q, c).0)
  {
    var i :| 0 <= i < |q.ids| && q.ids[i] == q.call.item;
  }

  /** How a step of a call moves through an attempt. */
  ghost predicate LegacyStep(w: World, q: Proc, p: Proc, e: Effect) {
    && (e.Hand? ==>
          && q.pc == CallHost && p.pc == WriteReceipt && q.call.Notify?
          && e.sub.item == q.call.item && e.sub.ids == q.ids && e.sub.skipped == q.missed && !e.sub.settled
          && p.ids == q.ids && p.base == q.base && p.missed == q.missed
          && p.st.phase in {Queued, Written} && p.st.notified == p.ids
          && p.st.protocol == 0 && !p.st.coalescing && !p.compatible)
    && (e.Save? && e.kind == Starting ==>
          q.pc == WriteSubmitting && p.pc == CallHost && e.ledger == q.st && p == q.(pc := CallHost))
    && (e.Save? && e.kind == Settling ==> q.pc == WriteReceipt && e.ledger == q.st && p.pc == Return)
    && (e.Save? && e.kind == Absorbing ==> q.pc == WriteAbsorbed)
    && (q.pc == CallHost ==> e.Hand?)
    && (q.pc == WriteReceipt ==> e.Save? && e.kind == Settling)
    && (p.pc == CallHost ==> q.pc == WriteSubmitting && e.Save?)
    && (p.pc == WriteReceipt ==> e.Hand?)
  }

  lemma NotifyIsLegacyStep(w: World, q: Proc, c: Choice)
    requires Shaped(q) && Notifying(q.pc) && LegacyCall(w, q) && View(q, w.ledger, w.clock)
    requires c.answer == AnsQueued || c.answer == AnsWritten
    requires q.pc == WriteReceipt ==> !c.fail
    ensures LegacyStep(w, q, PlanNotify(w, q, c).0, PlanNotify(w, q, c).1)
  {
  }

  lemma ElseIsLegacyStep(w: World, q: Proc, c: Choice)
    requires Shaped(q) && !Notifying(q.pc)
    ensures LegacyStep(w, q, Plan(w, q, c).0, Plan(w, q, c).1)
  {
    OnlyNotifySubmits(w, q, c);
    if Claiming(q.pc) {
      assert var e := PlanClaiming(w, q, c).1; e.Save? ==> e.kind == Observing || e.kind == Closing;
    }
  }

  lemma SettledCovers(w: World, n: nat, id: Id)
    requires n < |w.hist.handed| && w.hist.handed[n].settled && id in w.hist.handed[n].ids
    ensures Covered(w, id) || Skipped(w.hist.handed, n, |w.hist.handed|, id)
  {
    if !Skipped(w.hist.handed, n, |w.hist.handed|, id) { assert CoveredSince(w.hist.handed, n, id); }
  }

  /** Only persisting a receipt changes which ids are covered. */
  lemma CoveredAfter(w: World, v: World, e: Effect, id: Id)
    requires v.hist.handed ==
             (if e.Hand? then w.hist.handed + [e.sub]
              else if e.Save? && e.kind == Settling then MarkSettled(w.hist.handed, e.ledger.phase)
              else if e.Save? && e.kind == Observing then MarkSeen(w.hist.handed, e.ledger.id)
              else w.hist.handed)
    requires e.Hand? ==> !e.sub.settled
    requires e.Save? && e.kind == Settling ==> w.hist.handed != [] && e.ledger.phase != Uncertain
    ensures Covered(v, id) ==>
              || Covered(w, id)
              || (e.Save? && e.kind == Settling && id in w.hist.handed[|w.hist.handed| - 1].ids)
    ensures Covered(v, id) && e.Save? && e.kind == Settling ==>
              var last := w.hist.handed[|w.hist.handed| - 1];
              id in last.ids || (Covered(w, id) && id !in last.skipped)
  {
    if Covered(v, id) {
      var n :| CoveredSince(v.hist.handed, n, id);
      var settling := e.Save? && e.kind == Settling;
      if n < |w.hist.handed| && !(settling && n == |w.hist.handed| - 1) {
        SinceBefore(w.hist.handed, v.hist.handed, n, id);
      }
    }
  }

  /** Marking and adding calls settles none but the last, so it uncovers at
      most what the last one skipped. */
  lemma SinceBefore(before: seq<Submission>, after: seq<Submission>, n: nat, id: Id)
    requires |before| <= |after| && n < |before|
    requires forall j | 0 <= j < |before| ::
               && after[j].ids == before[j].ids && after[j].skipped == before[j].skipped
               && (before[j].settled ==> after[j].settled)
               && (j < |before| - 1 ==> after[j].settled == before[j].settled)
    requires CoveredSince(after, n, id) && (n == |before| - 1 ==> before[n].settled)
    ensures CoveredSince(before, n, id)
    ensures n < |before| - 1 && after[|before| - 1].settled ==> id !in before[|before| - 1].skipped
  {
  }

  /** Facts every step below starts from. */
  ghost predicate Ready(w: World, pid: Pid, p: Proc, e: Effect) {
    && Conserved(w) && Disciplined(w) && AllTrack(w) && Legacy(w)
    && pid in w.procs && Possible(w, pid, e)
    && LegacyStep(w, w.procs[pid], p, e) && SaveStep(w, w.procs[pid], p, e) && LockStep(w.procs[pid], p, e)
    && (w.procs[pid].pc == Return <==> e.Leave?)
  }

  lemma HandedAfter(w: World, pid: Pid, p: Proc, e: Effect)
    requires Ready(w, pid, p, e)
    ensures NoRepeat(Apply(w, pid, p, e).hist.handed)
  {
    EffectOnAttempts(w, pid, p, e);
    if e.Hand? { HandIsNoRepeat(w, pid, p, e); } else { MarkingIsNoRepeat(w, pid, p, e); }
  }

  lemma MarkingIsNoRepeat(w: World, pid: Pid, p: Proc, e: Effect)
    requires NoRepeat(w.hist.handed) && Possible(w, pid, e) && !e.Hand?
    ensures NoRepeat(Apply(w, pid, p, e).hist.handed)
  {
    EffectOnAttempts(w, pid, p, e);
    NoRepeatMarks(w.hist.handed, Apply(w, pid, p, e).hist.handed);
  }

  lemma HandIsNoRepeat(w: World, pid: Pid, p: Proc, e: Effect)
    requires Ready(w, pid, p, e) && e.Hand?
    ensures NoRepeat(w.hist.handed + [e.sub])
  {
    forall m | 0 <= m < |w.hist.handed| && e.sub.item in w.hist.handed[m].ids
      ensures Skipped(w.hist.handed, m, |w.hist.handed|, e.sub.item)
    {
      HandSkips(w, pid, p, e, m);
    }
    NoRepeatExtends(w.hist.handed, e.sub);
  }

  lemma NoRepeatExtends(handed: seq<Submission>, sub: Submission)
    requires NoRepeat(handed)
    requires forall m | 0 <= m < |handed| && sub.item in handed[m].ids :: Skipped(handed, m, |handed|, sub.item)
    ensures NoRepeat(handed + [sub])
  {
    var next := handed + [sub];
    forall m, n | 0 <= m < n < |next| && next[n].item in next[m].ids
      ensures Skipped(next, m, n, next[n].item)
    {
      SkippedIn(handed, next, m, n, next[n].item);
    }
  }

  lemma NoRepeatMarks(handed: seq<Submission>, next: seq<Submission>)
    requires NoRepeat(handed) && |next| == |handed|
    requires forall n | 0 <= n < |handed| ::
               next[n].item == handed[n].item && next[n].ids == handed[n].ids && next[n].skipped == handed[n].skipped
    ensures NoRepeat(next)
  {
    forall m, n | 0 <= m < n < |next| && next[n].item in next[m].ids
      ensures Skipped(next, m, n, next[n].item)
    {
      SkippedIn(handed, next, m, n, next[n].item);
    }
  }

  lemma SkippedIn(handed: seq<Submission>, next: seq<Submission>, m: int, n: int, id: Id)
    requires 0 <= m < n <= |handed| <= |next|
    requires forall j | 0 <= j < |handed| :: next[j].skipped == handed[j].skipped
    ensures Skipped(handed, m, n, id) ==> Skipped(next, m, n, id)
  {
    if Skipped(handed, m, n, id) {
      var j :| m < j < n && id in handed[j].skipped;
      assert id in next[j].skipped;
    }
  }

  lemma HandSkips(w: World, pid: Pid, p: Proc, e: Effect, m: nat)
    requires Ready(w, pid, p, e) && e.Hand? && m < |w.hist.handed| && e.sub.item in w.hist.handed[m].ids
    ensures Skipped(w.hist.handed, m, |w.hist.handed|, e.sub.item)
  {
    assert InLock(w.procs[pid]) && w.lock == Some(pid);
    assert LegacyCall(w, w.procs[pid]);
    assert w.hist.handed[m].settled;
    SettledCovers(w, m, e.sub.item);
  }

  /** The only ledger writes of a legacy run start or settle an attempt. */
  lemma LegacySaves(w: World, pid: Pid, p: Proc, e: Effect)
    requires Ready(w, pid, p, e) && e.Save?
    ensures e.kind == Starting || e.kind == Settling
    ensures e.kind == Starting ==>
              e.ledger.protocol == 0 && !e.ledger.coalescing && e.ledger.phase == Submitting
                && e.ledger.notified == w.ledger.notified
  {
    var q := w.procs[pid];
    assert InLock(q) && View(q, w.ledger, w.clock) && LegacyCall(w, q);
  }

  /** A receipt covers every covered id that is still pending. */
  lemma ReceiptCovers(w: World, q: Proc, id: Id)
    requires Shaped(q) && q.pc == WriteReceipt && LegacyCall(w, q) && Tracks(w, q)
    requires LegacyLedger(w)
    requires var last := w.hist.handed[|w.hist.handed| - 1];
             id in last.ids || (Covered(w, id) && id !in last.skipped)
    ensures Published(w, id) && (id in w.files.pending ==> id in q.st.notified)
  {
    if id in q.ids {
      var i :| 0 <= i < |q.ids| && q.ids[i] == id;
    } else {
      assert id in q.base;
      CoversAt(w, q, id);
    }
  }

  lemma CoverageStays(w: World, v: World, pid: Pid, p: Proc, e: Effect, id: Id)
    requires Ready(w, pid, p, e) && v == Apply(w, pid, p, e) && Covered(v, id)
    ensures Published(v, id) && (id in v.files.pending ==> id in v.ledger.notified)
  {
    EffectOnAttempts(w, pid, p, e);
    EffectOnLock(w, pid, p, e);
    EffectIsLater(w, pid, p, e);
    CoveredAfter(w, v, e, id);
    if e.Save? { LegacySaves(w, pid, p, e); }
    if e.Save? && e.kind == Settling { ReceiptCovers(w, w.procs[pid], id); }
  }

  /** An attempt in progress is the lock holder's, and only that one is
      unsettled. */
  ghost predicate Held(w: World) {
    && (w.ledger.phase == Submitting ==> HolderAt(w, CallHost) || HolderAt(w, WriteReceipt))
    && (forall n | 0 <= n < |w.hist.handed| ::
          w.hist.handed[n].settled || (n == |w.hist.handed| - 1 && HolderAt(w, WriteReceipt)))
  }

  lemma StaysHeld(w: World, pid: Pid, p: Proc, e: Effect)
    requires Ready(w, pid, p, e)
    ensures Held(Apply(w, pid, p, e))
  {
    if InAttempt(e) {
      AttemptStaysHeld(w, pid, p, e);
    } else {
      EffectOnAttempts(w, pid, p, e);
      EffectOnLock(w, pid, p, e);
      EffectOnCalls(w, pid, p, e);
      if e.Save? { LegacySaves(w, pid, p, e); }
    }
  }

  lemma AttemptStaysHeld(w: World, pid: Pid, p: Proc, e: Effect)
    requires Ready(w, pid, p, e) && InAttempt(e)
    ensures Held(Apply(w, pid, p, e))
  {
    if e.Hand? { HandStaysHeld(w, pid, p, e); }
    else if e.kind == Starting { StartStaysHeld(w, pid, p, e); }
    else { SettleStaysHeld(w, pid, p, e); }
  }

  lemma StartStaysHeld(w: World, pid: Pid, p: Proc, e: Effect)
    requires Ready(w, pid, p, e) && e.Save? && e.kind == Starting
    ensures Held(Apply(w, pid, p, e))
  {
    EffectOnAttempts(w, pid, p, e);
    EffectOnLock(w, pid, p, e);
    EffectOnCalls(w, pid, p, e);
    assert InLock(w.procs[pid]) && w.lock == Some(pid);
  }

  lemma SettleStaysHeld(w: World, pid: Pid, p: Proc, e: Effect)
    requires Ready(w, pid, p, e) && e.Save? && e.kind == Settling
    ensures Held(Apply(w, pid, p, e))
  {
    EffectOnAttempts(w, pid, p, e);
    EffectOnLock(w, pid, p, e);
    assert LegacyCall(w, w.procs[pid]);
  }

  lemma HandStaysHeld(w: World, pid: Pid, p: Proc, e: Effect)
    requires Ready(w, pid, p, e) && e.Hand?
    ensures Held(Apply(w, pid, p, e))
  {
    EffectOnAttempts(w, pid, p, e);
    EffectOnLock(w, pid, p, e);
    EffectOnCalls(w, pid, p, e);
    assert InLock(w.procs[pid]) && w.lock == Some(pid);
  }

  lemma LedgerStaysLegacy(w: World, pid: Pid, p: Proc, e: Effect)
    requires Ready(w, pid, p, e)
    ensures LegacyLedger(Apply(w, pid, p, e))
  {
    var v := Apply(w, pid, p, e);
    forall id | Covered(v, id)
      ensures Published(v, id) && (id in v.files.pending ==> id in v.ledger.notified)
    {
      CoverageStays(w, v, pid, p, e, id);
    }
    StaysHeld(w, pid, p, e);
    EffectOnAttempts(w, pid, p, e);
    EffectOnLock(w, pid, p, e);
    if e.Save? { LegacySaves(w, pid, p, e); }
    assert LegacyCall(w, w.procs[pid]);
  }

  lemma OutsideLockIsLegacy(w: World, p: Proc)
    requires Shaped(p) && !InLock(p)
    ensures LegacyCall(w, p)
  {
  }

  lemma OtherStaysLegacy(w: World, pid: Pid, p: Proc, e: Effect, other: Pid)
    requires Ready(w, pid, p, e) && other in w.procs && other != pid
    ensures LegacyCall(Apply(w, pid, p, e), w.procs[other])
  {
    var v, r := Apply(w, pid, p, e), w.procs[other];
    EffectOnAttempts(w, pid, p, e);
    EffectOnLock(w, pid, p, e);
    if InLock(r) {
      assert w.lock == Some(other) && !InLock(w.procs[pid]);
      assert !e.Save? && !e.Hand?;
      LegacyCallStable(w, v, r);
    } else {
      OutsideLockIsLegacy(v, r);
    }
  }

  lemma SearchIsLegacy(w: World, q: Proc, c: Choice)
    requires LegacyCall(w, q) && Shaped(q) && w.address != Some(2)
    requires q.pc in {ProbeClaimed, ProbeDone, ReadAddress, WriteAbsorbed}
    ensures LegacyCall(w, PlanNotify(w, q, c).0)
  {
    NotifyingMoves(w, q, c);
  }

  lemma ClaimingIsLegacy(w: World, q: Proc, c: Choice)
    requires LegacyCall(w, q) && Shaped(q) && Claiming(q.pc)
    ensures LegacyCall(w, PlanClaiming(w, q, c).0)
  {
    var p := PlanClaiming(w, q, c).0;
    assert p.base == q.base && (Claiming(p.pc) || p.pc == Scan || p.pc == Return) && (Scanned(p) ==> Scanned(q));
  }

  lemma PlanIsLegacy(w: World, q: Proc, c: Choice)
    requires Conserved(w) && LegacyLedger(w) && LegacyCall(w, q) && Shaped(q) && (InLock(q) ==>
               View(q, w.ledger, w.clock))
    requires w.address != Some(2)
    requires InLock(q) ==> w.lock.Some? && w.lock.value in w.procs && w.procs[w.lock.value] == q
    requires q.pc != WriteSubmitting && q.pc != CallHost && q.pc != WriteReceipt
    ensures LegacyCall(w, Plan(w, q, c).0)
  {
    if Listing(q.pc) { ReadItemIsLegacy(w, q, c); }
    else if q.pc == Choose { ChooseIsLegacy(w, q, c); }
    else if Notifying(q.pc) { SearchIsLegacy(w, q, c); }
    else if Claiming(q.pc) { ClaimingIsLegacy(w, q, c); }
    else if q.pc != Return { assert !Scanned(PlanAck(w, q, c).0); }
  }

  lemma LegacyCallStable(w: World, v: World, p: Proc)
    requires LegacyCall(w, p) && v.hist.handed == w.hist.handed && v.ledger.notified == w.ledger.notified
    ensures LegacyCall(v, p)
  {
    assert forall id :: Covered(v, id) <==> Covered(w, id);
  }

  lemma AttemptIsLegacy(w: World, pid: Pid, p: Proc, e: Effect)
    requires Ready(w, pid, p, e) && (e.Hand? || (e.Save? && (e.kind == Starting || e.kind == Settling)))
    ensures LegacyCall(Apply(w, pid, p, e), p)
  {
    var q, v := w.procs[pid], Apply(w, pid, p, e);
    EffectOnAttempts(w, pid, p, e);
    EffectOnLock(w, pid, p, e);
    assert LegacyCall(w, q);
    forall id | Covered(v, id)
      ensures Covered(w, id) || e.Save?
    {
      CoveredAfter(w, v, e, id);
    }
  }

  predicate InAttempt(e: Effect) {
    e.Hand? || (e.Save? && (e.kind == Starting || e.kind == Settling))
  }

  lemma QuietStepIsLegacy(w: World, pid: Pid, p: Proc, e: Effect)
    requires Ready(w, pid, p, e) && !InAttempt(e) && !e.Leave? && LegacyCall(w, p)
    ensures LegacyCall(Apply(w, pid, p, e), p)
  {
    if e.Save? { LegacySaves(w, pid, p, e); }
    EffectOnAttempts(w, pid, p, e);
    EffectOnLock(w, pid, p, e);
    LegacyCallStable(w, Apply(w, pid, p, e), p);
  }

  lemma OwnStaysLegacy(w: World, pid: Pid, c: Choice)
    requires Conserved(w) && Disciplined(w) && AllTrack(w) && Legacy(w) && Enabled(w, Advance(pid, c))
    requires Settles(w, Advance(pid, c)) && w.address != Some(2) && w.procs[pid].pc != Return
    ensures var (p, e) := Plan(w, w.procs[pid], c); LegacyCall(Apply(w, pid, p, e), p)
  {
    var q := w.procs[pid];
    var (p, e) := Plan(w, q, c);
    PlanIsReady(w, pid, c);
    assert LegacyCall(w, q) && (InLock(q) ==> w.lock == Some(pid));
    if InAttempt(e) {
      AttemptIsLegacy(w, pid, p, e);
    } else {
      if q.pc == WriteSubmitting { assert p.pc == Return && LegacyCall(w, p); } else { PlanIsLegacy(w, q, c); }
      QuietStepIsLegacy(w, pid, p, e);
    }
  }

  lemma CallStaysLegacy(w: World, pid: Pid, p: Proc, e: Effect)
    requires Ready(w, pid, p, e) && (!e.Leave? ==> LegacyCall(Apply(w, pid, p, e), p))
    ensures Legacy(Apply(w, pid, p, e))
  {
    HandedAfter(w, pid, p, e);
    LedgerStaysLegacy(w, pid, p, e);
    EffectOnCalls(w, pid, p, e);
    forall other | other in Apply(w, pid, p, e).procs
      ensures LegacyCall(Apply(w, pid, p, e), Apply(w, pid, p, e).procs[other])
    {
      if other != pid { OtherStaysLegacy(w, pid, p, e, other); }
    }
  }

  lemma PlanIsReady(w: World, pid: Pid, c: Choice)
    requires Conserved(w) && Disciplined(w) && AllTrack(w) && Legacy(w) && Enabled(w, Advance(pid, c))
    requires Settles(w, Advance(pid, c))
    ensures var (p, e) := Plan(w, w.procs[pid], c); Ready(w, pid, p, e)
  {
    var q := w.procs[pid];
    assert LegacyCall(w, q);
    PlanIsSaveStep(w, q, c);
    PlanIsLockStep(w, q, c);
    OnlyReturnLeaves(w, q, c);
    if Notifying(q.pc) { NotifyIsLegacyStep(w, q, c); } else { ElseIsLegacyStep(w, q, c); }
  }

  lemma LedgerStable(w: World, v: World)
    requires LegacyLedger(w) && Later(w, v)
    requires v.hist.handed == w.hist.handed && v.ledger == w.ledger
    requires HolderAt(w, CallHost) ==> HolderAt(v, CallHost)
    requires HolderAt(w, WriteReceipt) ==> HolderAt(v, WriteReceipt)
    ensures LegacyLedger(v)
  {
    assert forall id :: Covered(v, id) <==> Covered(w, id);
  }

  lemma EnvironmentStaysLegacy(w: World, a: Action)
    requires Conserved(w) && Disciplined(w) && Legacy(w) && Enabled(w, a) && Settles(w, a) && !a.Advance?
    ensures Legacy(Next(w, a))
  {
    var v := Next(w, a);
    LedgerStable(w, v);
    forall pid | pid in v.procs
      ensures LegacyCall(v, v.procs[pid])
    {
      if !(a.Start? && pid == a.pid) { LegacyCallStable(w, v, w.procs[pid]); }
    }
  }

  lemma StepStaysLegacy(w: World, a: Action)
    requires Conserved(w) && Disciplined(w) && AllTrack(w) && Legacy(w) && Enabled(w, a) && Settles(w, a)
    requires w.address != Some(2)
    ensures Legacy(Next(w, a))
  {
    if a.Advance? {
      var (p, e) := Plan(w, w.procs[a.pid], a.choice);
      PlanIsReady(w, a.pid, a.choice);
      if !e.Leave? { OwnStaysLegacy(w, a.pid, a.choice); }
      CallStaysLegacy(w, a.pid, p, e);
    } else {
      EnvironmentStaysLegacy(w, a);
    }
  }

  lemma {:induction false} LegacyRunsStayLegacy(ws: seq<World>, acts: seq<Action>, k: nat)
    requires LegacyRun(ws, acts) && k < |ws|
    ensures Legacy(ws[k])
  {
    if k > 0 {
      LegacyRunsStayLegacy(ws, acts, k - 1);
      CallsTrack(ws, acts, k - 1);
      StepStaysLegacy(ws[k - 1], acts[k - 1]);
    }
  }

  /** Legacy dedup: every covered id that is still pending is on record as
      notified, and no host call was ever made for an id an earlier call had
      covered, unless a listing between them failed to read it, however pushes,
      claims and notifies interleave. */
  lemma CoveredIdsAreNotResubmitted(ws: seq<World>, acts: seq<Action>, k: nat)
    requires LegacyRun(ws, acts) && k < |ws|
    ensures forall id | Covered(ws[k], id) && id in ws[k].files.pending :: id in ws[k].ledger.notified
    ensures NoRepeat(ws[k].hist.handed)
  {
    LegacyRunsStayLegacy(ws, acts, k);
  }

  /** What an attempt leaves of the dedup: whatever was on record before, the
      next notify of an item counts as known exactly when this attempt was
      queued or written and listed the item. A failed, deferred or uncertain
      attempt forgets what earlier receipts had covered. */
  lemma KnownAfterExactly(l: Ledger, ids: seq<Id>, at: int, nonce: nat, answer: Answer, item: Id, now: int)
    requires answer != AnsInvalid
    ensures var after := Settle(Begin(l, false, ids, at, nonce), false, ids, answer);
            && (Decide(after, item, false, now) == Known <==>
                  (answer == AnsQueued || answer == AnsWritten) && item in ids)
            && (Decide(after, item, false, now) == InProgress <==>
                  answer == AnsUncertain && now < at + 30_000)
  {
  }
}
