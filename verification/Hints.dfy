/** Hints the host may still hold. For a receiver that stays at protocol 2 and
    a host that only queues or fails, at most one hint is unobserved at any
    time, and the hints are counted by the flights that were closed or expired. */
module Hints {
  import opened Order
  import opened MailFiles
  import opened Ledgers
  import opened Protocol
  import opened Exclusion
  import opened Identities
  import opened Attempts

  /** A run in which the address stays at protocol 2 and no host call is
      answered `written` or `deferred`. Calls may fail, be cancelled or crash
      at any operation. */
  ghost predicate QueueOnlyRun(ws: seq<World>, acts: seq<Action>) {
    && IsRun(ws, acts)
    && (forall k | 0 <= k < |ws| :: ws[k].address == Some(2))
    && (forall k | 0 <= k < |acts| && acts[k].Advance? :: Queues(acts[k].choice))
  }

  predicate Queues(c: Choice) {
    c.answer != AnsWritten && c.answer != AnsDeferred
  }

  /** Every identity the host was given is the current one or was observed. */
  ghost predicate NoOrphan(w: World) {
    forall n | 0 <= n < |w.hist.handed| ::
      w.hist.handed[n].id in w.hist.observed || w.ledger.id == Some(w.hist.handed[n].id)
  }

  ghost predicate ModernLedger(l: Ledger) {
    && l.phase != Written && l.phase != Deferred
    && (l.phase != Blank ==> l.protocol == 2 && l.id.Some?)
    && (l.phase == Queued || l.phase == Receiving ==> l.coalescing)
  }

  predicate ModernCall(p: Proc) {
    && (p.pc == Choose || p.pc == WriteSubmitting || p.pc == CallHost || p.pc == WriteReceipt ==> p.compatible)
    && (p.pc == WriteReceipt ==> p.st.phase != Written && p.st.phase != Deferred)
  }

  predicate Open(phase: Phase) { phase != Blank && phase != Received }

  predicate Unsettled(phase: Phase) { phase == Submitting || phase == Failed || phase == Uncertain }

  /** Flights are opened once and ended by a close or an expired lease. */
  ghost predicate Counted(w: World) {
    && w.hist.flights == w.hist.closes + w.hist.expiries + (if Open(w.ledger.phase) then 1 else 0)
    && w.hist.accepts + (if Unsettled(w.ledger.phase) then 1 else 0) <= w.hist.flights
    && |w.hist.recorded| <= w.hist.flights
  }

  ghost predicate Modern(w: World) {
    && ModernLedger(w.ledger)
    && NoOrphan(w)
    && Counted(w)
    && (forall pid | pid in w.procs :: ModernCall(w.procs[pid]))
  }

  lemma PlanIsModern(w: World, q: Proc, c: Choice)
    requires Shaped(q) && ModernCall(q) && w.address == Some(2) && Queues(c)
    ensures q.pc != Return ==> ModernCall(Plan(w, q, c).0)
  {
    if Notifying(q.pc) { NotifyIsModern(w, q, c); }
    else if q.pc != Return { OutsideNotifying(w, q, c); }
  }

  lemma NotifyIsModern(w: World, q: Proc, c: Choice)
    requires Shaped(q) && Notifying(q.pc) && ModernCall(q) && w.address == Some(2) && Queues(c)
    ensures ModernCall(PlanNotify(w, q, c).0)
  {
  }

  /** Reserving a submission either keeps the identity of an unsettled attempt
      or opens a flight when none is open, or the open one was observed. */
  lemma StartingOpens(w: World, p: Proc)
    requires Consistent(w) && ModernLedger(w.ledger)
    requires p.pc == WriteSubmitting && p.compatible && p.st.id.Some? && Drawn(w, p) && View(p, w.ledger, w.clock)
    ensures p.st.protocol == 2 && p.st.phase == Submitting
    ensures p.st.id == w.ledger.id ==> Unsettled(w.ledger.phase)
    ensures p.st.id != w.ledger.id ==>
              && p.st.id.value !in w.hist.recorded
              && (w.ledger.phase == Blank || w.ledger.phase == Receiving || w.ledger.phase == Received)
  {
  }

  /** What a ledger write does to the counters. */
  lemma EffectOnCounters(w: World, pid: Pid, p: Proc, e: Effect)
    requires Possible(w, pid, e)
    ensures var h, g := w.hist, Apply(w, pid, p, e).hist;
            var starts := e.Save? && e.kind == Starting;
            && g.flights == h.flights + (if starts && w.ledger.id != e.ledger.id then 1 else 0)
            && g.expiries == h.expiries + (if starts && w.ledger.phase == Receiving then 1 else 0)
            && g.accepts == h.accepts + (if e.Save? && e.kind == Settling && e.ledger.phase == Queued then 1 else 0)
            && var closing := e.Save? && (e.kind == Closing || (e.kind == Observing && e.ledger.phase == Received));
               g.closes == h.closes + (if closing then 1 else 0)
  {
  }

  lemma CallIsModern(w: World, pid: Pid, p: Proc, e: Effect)
    requires Disciplined(w) && Traced(w) && Modern(w) && pid in w.procs && Possible(w, pid, e)
    requires SaveStep(w, w.procs[pid], p, e) && (e.Save? ==> InLock(w.procs[pid]))
    requires e.Save? && e.kind == Settling ==> e.ledger == w.procs[pid].st && w.procs[pid].pc == WriteReceipt
    requires e.Save? && e.kind == Observing ==> e.ledger.coalescing
    requires !e.Leave? ==> ModernCall(p)
    ensures Modern(Apply(w, pid, p, e))
  {
    EffectOnCalls(w, pid, p, e);
    CallIsCounted(w, pid, p, e);
    CallLeavesNoOrphan(w, pid, p, e);
  }

  lemma CallLeavesNoOrphan(w: World, pid: Pid, p: Proc, e: Effect)
    requires Disciplined(w) && Traced(w) && Modern(w) && pid in w.procs && Possible(w, pid, e)
    requires SaveStep(w, w.procs[pid], p, e) && (e.Save? ==> InLock(w.procs[pid]))
    requires e.Save? && e.kind == Settling ==> e.ledger == w.procs[pid].st && w.procs[pid].pc == WriteReceipt
    requires e.Save? && e.kind == Observing ==> e.ledger.coalescing
    ensures ModernLedger(Apply(w, pid, p, e).ledger) && NoOrphan(Apply(w, pid, p, e))
  {
    var q := w.procs[pid];
    EffectOnIdentities(w, pid, p, e);
    EffectOnLock(w, pid, p, e);
    if e.Save? && e.kind == Starting {
      assert Drawn(w, q) && View(q, w.ledger, w.clock) && ModernCall(q);
      StartingOpens(w, q);
    }
    if e.Hand? {
      assert View(q, w.ledger, w.clock);
    }
  }

  lemma CallIsCounted(w: World, pid: Pid, p: Proc, e: Effect)
    requires Disciplined(w) && Traced(w) && Modern(w) && pid in w.procs && Possible(w, pid, e)
    requires SaveStep(w, w.procs[pid], p, e) && (e.Save? ==> InLock(w.procs[pid]))
    requires e.Save? && e.kind == Settling ==> e.ledger == w.procs[pid].st && w.procs[pid].pc == WriteReceipt
    ensures Counted(Apply(w, pid, p, e))
  {
    if e.Save? && e.kind == Starting {
      StartIsCounted(w, pid, p, e);
    } else {
      EffectOnIdentities(w, pid, p, e);
      EffectOnCounters(w, pid, p, e);
      EffectOnLock(w, pid, p, e);
    }
  }

  lemma StartIsCounted(w: World, pid: Pid, p: Proc, e: Effect)
    requires Disciplined(w) && Traced(w) && Modern(w) && pid in w.procs && Possible(w, pid, e)
    requires SaveStep(w, w.procs[pid], p, e) && (e.Save? ==> InLock(w.procs[pid]))
    requires e.Save? && e.kind == Starting
    ensures Counted(Apply(w, pid, p, e))
  {
    var q := w.procs[pid];
    EffectOnIdentities(w, pid, p, e);
    EffectOnCounters(w, pid, p, e);
    EffectOnLock(w, pid, p, e);
    assert Drawn(w, q) && View(q, w.ledger, w.clock) && ModernCall(q);
    StartingOpens(w, q);
  }

  lemma PlanSavesOwn(w: World, q: Proc, c: Choice)
    requires Shaped(q)
    ensures var e := Plan(w, q, c).1;
            && (e.Save? && e.kind == Settling ==> e.ledger == q.st && q.pc == WriteReceipt)
            && (e.Save? && e.kind == Observing ==> e.ledger.coalescing)
  {
  }

  lemma StepIsModern(w: World, a: Action)
    requires Disciplined(w) && Traced(w) && Modern(w) && Enabled(w, a)
    requires w.address == Some(2) && (a.Advance? ==> Queues(a.choice))
    ensures Modern(Next(w, a))
  {
    if a.Advance? {
      var q := w.procs[a.pid];
      var (p, e) := Plan(w, q, a.choice);
      PlanIsSaveStep(w, q, a.choice);
      PlanIsLockStep(w, q, a.choice);
      PlanIsModern(w, q, a.choice);
      PlanSavesOwn(w, q, a.choice);
      OnlyReturnLeaves(w, q, a.choice);
      CallIsModern(w, a.pid, p, e);
    }
  }

  lemma {:induction false} QueueOnlyIsModern(ws: seq<World>, acts: seq<Action>, k: nat)
    requires QueueOnlyRun(ws, acts) && k < |ws|
    ensures Disciplined(ws[k]) && Traced(ws[k]) && Modern(ws[k])
  {
    IdentitiesAreTraced(ws, acts, k);
    if k > 0 {
      QueueOnlyIsModern(ws, acts, k - 1);
      StepIsModern(ws[k - 1], acts[k - 1]);
    }
  }

  /** No orphaned hint: two identities the host was given and no receiver has
      observed are the same identity, and it is the one in the ledger, so the
      next notice-specific receive for it is accepted. Crashes between the
      reservation and the receipt are included. */
  lemma AtMostOneUnobservedHint(ws: seq<World>, acts: seq<Action>, k: nat, m: nat, n: nat)
    requires QueueOnlyRun(ws, acts) && k < |ws|
    requires m < |ws[k].hist.handed| && n < |ws[k].hist.handed|
    requires ws[k].hist.handed[m].id !in ws[k].hist.observed
    requires ws[k].hist.handed[n].id !in ws[k].hist.observed
    ensures ws[k].hist.handed[m].id == ws[k].hist.handed[n].id
    ensures Accepts(ws[k].ledger, ws[k].hist.handed[n].id)
  {
    QueueOnlyIsModern(ws, acts, k);
  }

  /** Receipts recorded as queued, and distinct identities given to the host,
      never exceed one plus the flights closed plus the leases expired. */
  lemma HintsAreBounded(ws: seq<World>, acts: seq<Action>, k: nat)
    requires QueueOnlyRun(ws, acts) && k < |ws|
    ensures ws[k].hist.accepts <= 1 + ws[k].hist.closes + ws[k].hist.expiries
    ensures |set n | 0 <= n < |ws[k].hist.handed| :: ws[k].hist.handed[n].id|
            <= 1 + ws[k].hist.closes + ws[k].hist.expiries
  {
    QueueOnlyIsModern(ws, acts, k);
    var ids := set n | 0 <= n < |ws[k].hist.handed| :: ws[k].hist.handed[n].id;
    assert ids <= ws[k].hist.recorded;
    SmallerSet(ids, ws[k].hist.recorded);
  }

  // ---- Host calls ----

  /** A run in which the host queues every hint it is given. */
  ghost predicate AlwaysQueuedRun(ws: seq<World>, acts: seq<Action>) {
    && QueueOnlyRun(ws, acts)
    && (forall k | 0 <= k < |acts| && acts[k].Advance? :: acts[k].choice.answer == AnsQueued)
  }

  /** How many host calls have their receipt on record, or have not. */
  function CountSettled(handed: seq<Submission>, settled: bool): nat {
    if handed == [] then 0
    else CountSettled(handed[..|handed| - 1], settled) + (if handed[|handed| - 1].settled == settled then 1 else 0)
  }

  lemma {:induction false} CountsAddUp(handed: seq<Submission>)
    ensures CountSettled(handed, true) + CountSettled(handed, false) == |handed|
  {
    if handed != [] { CountsAddUp(handed[..|handed| - 1]); }
  }

  lemma {:induction false} SameSettled(a: seq<Submission>, b: seq<Submission>)
    requires |a| == |b| && forall n | 0 <= n < |a| :: a[n].settled == b[n].settled
    ensures CountSettled(a, true) == CountSettled(b, true)
  {
    if a != [] { SameSettled(a[..|a| - 1], b[..|b| - 1]); }
  }

  /** Every receipt on record was counted as accepted. */
  ghost predicate Receipted(w: World) {
    && CountSettled(w.hist.handed, true) <= w.hist.accepts
    && (forall pid | pid in w.procs && w.procs[pid].pc == WriteReceipt :: w.procs[pid].st.phase == Queued)
  }

  lemma NotifyIsReceipted(w: World, q: Proc, c: Choice)
    requires Shaped(q) && Notifying(q.pc) && c.answer == AnsQueued
    ensures var (p, e) := PlanNotify(w, q, c);
            && (p.pc == WriteReceipt ==> p.st.phase == Queued)
            && (e.Hand? ==> !e.sub.settled)
            && (e.Save? ==> e.kind != Observing && e.kind != Closing)
            && (e.Save? && e.kind == Settling ==> q.pc == WriteReceipt && e.ledger == q.st)
  {
  }

  lemma EffectIsReceipted(w: World, pid: Pid, p: Proc, e: Effect)
    requires Possible(w, pid, e) && CountSettled(w.hist.handed, true) <= w.hist.accepts
    requires e.Hand? ==> !e.sub.settled
    requires e.Save? && e.kind == Settling ==> e.ledger.phase == Queued
    ensures CountSettled(Apply(w, pid, p, e).hist.handed, true) <= Apply(w, pid, p, e).hist.accepts
  {
    var handed, next := w.hist.handed, Apply(w, pid, p, e).hist.handed;
    EffectOnAttempts(w, pid, p, e);
    EffectOnCounters(w, pid, p, e);
    if e.Hand? {
      assert next[..|next| - 1] == handed;
    } else if e.Save? && e.kind == Settling {
      if handed != [] { assert next[..|next| - 1] == handed[..|handed| - 1]; }
    } else {
      SameSettled(handed, next);
    }
  }

  lemma StepIsReceipted(w: World, a: Action)
    requires Enabled(w, a) && Receipted(w) && (a.Advance? ==> a.choice.answer == AnsQueued)
    ensures Receipted(Next(w, a))
  {
    var v := Next(w, a);
    if a.Advance? {
      var q := w.procs[a.pid];
      var (p, e) := Plan(w, q, a.choice);
      if Notifying(q.pc) { NotifyIsReceipted(w, q, a.choice); }
      else if q.pc != Return { OutsideNotifying(w, q, a.choice); }
      PlanSettlesOwn(w, q, a.choice);
      EffectIsReceipted(w, a.pid, p, e);
    }
    forall pid | pid in v.procs && v.procs[pid].pc == WriteReceipt
      ensures v.procs[pid].st.phase == Queued
    {
      CallAfter(w, a, pid);
    }
  }

  lemma {:induction false} QueuedIsReceipted(ws: seq<World>, acts: seq<Action>, k: nat)
    requires AlwaysQueuedRun(ws, acts) && k < |ws|
    ensures Receipted(ws[k])
  {
    if k > 0 {
      QueuedIsReceipted(ws, acts, k - 1);
      StepIsReceipted(ws[k - 1], acts[k - 1]);
    }
  }

  /** With a host that queues every hint, host calls never exceed one plus the
      flights closed plus the leases expired, save for calls whose receipt was
      never recorded because the process crashed or could not write it. */
  lemma HostCallsAreBounded(ws: seq<World>, acts: seq<Action>, k: nat)
    requires AlwaysQueuedRun(ws, acts) && k < |ws|
    ensures |ws[k].hist.handed| <=
            1 + ws[k].hist.closes + ws[k].hist.expiries + CountSettled(ws[k].hist.handed, false)
  {
    HintsAreBounded(ws, acts, k);
    QueuedIsReceipted(ws, acts, k);
    CountsAddUp(ws[k].hist.handed);
  }
}
