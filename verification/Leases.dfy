/** The drain lease. A non-empty drain of the current notice renews the flight
    for five minutes; while drains keep coming within that time, nothing is
    submitted to the host. */
module Leases {
  import opened MailFiles
  import opened Ledgers
  import opened Protocol
  import opened Exclusion
  import opened Identities
  import opened Hints

  /** The lease in the ledger runs from the listing of the last accepted
      non-empty drain. */
  ghost predicate LeaseRecorded(w: World) {
    var drains := w.hist.drains;
    && (w.ledger.phase == Receiving ==> drains != [] && w.ledger.drainUntil == drains[|drains| - 1] + 300_000)
  }

  /** Which writes leave a lease behind. */
  ghost predicate LeaseStep(w: World, p: Proc, e: Effect) {
    e.Save? && e.ledger.phase == Receiving ==>
      if e.kind == Observing then e.ledger.drainUntil == p.now + 300_000
      else e.kind == Absorbing && w.ledger.phase == Receiving && e.ledger.drainUntil == w.ledger.drainUntil
  }

  lemma PlanIsLeaseStep(w: World, q: Proc, c: Choice)
    requires Shaped(q) && (InLock(q) ==> View(q, w.ledger, w.clock))
    ensures LeaseStep(w, Plan(w, q, c).0, Plan(w, q, c).1)
  {
    PlanIsSaveStep(w, q, c);
    if Claiming(q.pc) { ClaimingIsLeaseStep(w, q, c); }
  }

  lemma ClaimingIsLeaseStep(w: World, q: Proc, c: Choice)
    requires Shaped(q) && Claiming(q.pc) && (InLock(q) ==> View(q, w.ledger, w.clock))
    ensures LeaseStep(w, PlanClaiming(w, q, c).0, PlanClaiming(w, q, c).1)
  {
  }

  lemma EffectOnDrains(w: World, pid: Pid, p: Proc, e: Effect)
    requires Possible(w, pid, e)
    ensures Apply(w, pid, p, e).hist.drains ==
            w.hist.drains + (if e.Save? && e.kind == Observing && e.ledger.phase != Received then [p.now] else [])
  {
  }

  lemma {:induction false} LeasesAreRecorded(ws: seq<World>, acts: seq<Action>, k: nat)
    requires IsRun(ws, acts) && k < |ws|
    ensures LeaseRecorded(ws[k])
  {
    if k > 0 {
      LeasesAreRecorded(ws, acts, k - 1);
      LockDiscipline(ws, acts, k - 1);
      StepRecordsLease(ws[k - 1], acts[k - 1]);
    }
  }

  lemma StepRecordsLease(w: World, a: Action)
    requires Disciplined(w) && LeaseRecorded(w) && Enabled(w, a)
    ensures LeaseRecorded(Next(w, a))
  {
    if a.Advance? {
      var (p, e) := Plan(w, w.procs[a.pid], a.choice);
      PlanIsLeaseStep(w, w.procs[a.pid], a.choice);
      EffectOnDrains(w, a.pid, p, e);
      EffectOnLock(w, a.pid, p, e);
    }
  }

  // ---- When later drains were listed ----

  ghost predicate Prefix(a: seq<int>, b: seq<int>) {
    |a| <= |b| && b[..|a|] == a
  }

  /** Every drain still to be accepted was listed at `time` or later. */
  ghost predicate ListsAfter(w: World, time: int) {
    w.clock >= time && forall pid | pid in w.procs && w.procs[pid].pc == WriteObserved :: w.procs[pid].now >= time
  }

  lemma ObservesNow(w: World, q: Proc, c: Choice)
    requires Shaped(q)
    ensures var (p, e) := Plan(w, q, c);
            && (p.pc == WriteObserved && q.pc != WriteObserved ==> p.now == w.clock)
            && (e.Save? && e.kind == Observing ==> q.pc == WriteObserved && p.now == q.now && p.pc == Rename)
            && (q.pc == WriteObserved ==> p.pc != WriteObserved)
  {
    if Claiming(q.pc) { ClaimingStays(w, q, c); ObservingPlan(w, q, c); }
    else if Notifying(q.pc) { NotifySavesNothingSeen(w, q, c); }
    else if q.pc != Return { OutsideNotifying(w, q, c); ListingPlan(w, q, c); }
  }

  lemma ObservingPlan(w: World, q: Proc, c: Choice)
    requires Shaped(q) && Claiming(q.pc)
    ensures var (p, e) := PlanClaiming(w, q, c);
            && p.pc != WriteObserved
            && (e.Save? && e.kind == Observing ==> q.pc == WriteObserved && p.now == q.now && p.pc == Rename)
  {
  }

  lemma NotifySavesNothingSeen(w: World, q: Proc, c: Choice)
    requires Shaped(q) && Notifying(q.pc)
    ensures var (p, e) := PlanNotify(w, q, c); p.pc != WriteObserved && (e.Save? ==> e.kind != Observing)
  {
  }

  lemma ListingPlan(w: World, q: Proc, c: Choice)
    requires Shaped(q) && !Notifying(q.pc) && !Claiming(q.pc) && q.pc != Return
    ensures Plan(w, q, c).0.pc == WriteObserved ==> Plan(w, q, c).0.now == w.clock
  {
  }

  lemma StepListsAfter(w: World, a: Action, time: int)
    requires Enabled(w, a) && ListsAfter(w, time)
    ensures ListsAfter(Next(w, a), time)
    ensures Prefix(w.hist.drains, Next(w, a).hist.drains)
    ensures forall n | |w.hist.drains| <= n < |Next(w, a).hist.drains| :: Next(w, a).hist.drains[n] >= time
  {
    var v := Next(w, a);
    if a.Advance? {
      var (p, e) := Plan(w, w.procs[a.pid], a.choice);
      ObservesNow(w, w.procs[a.pid], a.choice);
      EffectOnDrains(w, a.pid, p, e);
      EffectOnLock(w, a.pid, p, e);
    }
    forall pid | pid in v.procs && v.procs[pid].pc == WriteObserved
      ensures v.procs[pid].now >= time
    {
      CallAfter(w, a, pid);
    }
  }

  lemma {:induction false} LaterDrains(ws: seq<World>, acts: seq<Action>, j: nat, k: nat, time: int)
    requires IsRun(ws, acts) && j <= k < |ws| && ListsAfter(ws[j], time)
    ensures ListsAfter(ws[k], time)
    ensures Prefix(ws[j].hist.drains, ws[k].hist.drains)
    ensures forall n | |ws[j].hist.drains| <= n < |ws[k].hist.drains| :: ws[k].hist.drains[n] >= time
    decreases k
  {
    if j < k {
      LaterDrains(ws, acts, j, k - 1, time);
      StepListsAfter(ws[k - 1], acts[k - 1], time);
      var a, b, c := ws[j].hist.drains, ws[k - 1].hist.drains, ws[k].hist.drains;
      assert c[..|a|] == b[..|a|];
      assert forall n | 0 <= n < |b| :: c[n] == b[n];
    }
  }

  // ---- Renewal ----

  /** A flight is active and no call is on the way to a submission. */
  ghost predicate Quiet(w: World) {
    && w.ledger.protocol == 2 && w.ledger.coalescing
    && (w.ledger.phase == Queued || w.ledger.phase == Receiving)
    && (forall pid | pid in w.procs :: QuietCall(w.procs[pid]))
  }

  predicate QuietCall(p: Proc) {
    && p.pc != WriteSubmitting && p.pc != CallHost && p.pc != WriteReceipt
    && (p.pc == Choose ==> p.compatible)
  }

  /** The address is at protocol 2 from world i to world k. */
  ghost predicate Modernized(ws: seq<World>, i: nat, k: nat)
    requires i <= k < |ws|
  {
    forall j | i <= j <= k :: ws[j].address == Some(2)
  }

  /** Every notify that has read the address found protocol 2. */
  ghost predicate AllCompatible(w: World) {
    forall pid | pid in w.procs :: Compatible(w.procs[pid])
  }

  predicate Compatible(p: Proc) {
    p.pc == Choose || p.pc == WriteSubmitting ==> p.compatible
  }

  lemma PlanIsCompatible(w: World, q: Proc, c: Choice)
    requires Shaped(q) && Compatible(q) && w.address == Some(2) && q.pc != Return
    ensures Compatible(Plan(w, q, c).0)
  {
    if Notifying(q.pc) { NotifyIsCompatible(w, q, c); } else { OutsideNotifying(w, q, c); }
  }

  lemma NotifyIsCompatible(w: World, q: Proc, c: Choice)
    requires Shaped(q) && Compatible(q) && Notifying(q.pc) && w.address == Some(2)
    ensures Compatible(PlanNotify(w, q, c).0)
  {
  }

  /** If the address was at protocol 2 all along, so did every notify find it. */
  lemma {:induction false} CallsAreCompatible(ws: seq<World>, acts: seq<Action>, k: nat, pid: Pid)
    requires IsRun(ws, acts) && k < |ws| && Modernized(ws, 0, k) && pid in ws[k].procs
    ensures Compatible(ws[k].procs[pid])
  {
    if k > 0 {
      var w, a := ws[k - 1], acts[k - 1];
      CallAfter(w, a, pid);
      if pid in w.procs {
        CallsAreCompatible(ws, acts, k - 1, pid);
        if a.Advance? && a.pid == pid { PlanIsCompatible(w, w.procs[pid], a.choice); }
      }
    }
  }

  /** While a flight is active no call is on the way to a submission: one that
      was would have decided so under the lock, on this ledger, before now. */
  lemma ActiveIsQuiet(ws: seq<World>, acts: seq<Action>, k: nat)
    requires IsRun(ws, acts) && k < |ws| && AllCompatible(ws[k]) && FlightActive(ws[k].ledger, ws[k].clock)
    ensures Quiet(ws[k])
  {
    LockDiscipline(ws, acts, k);
    var w := ws[k];
    forall pid | pid in w.procs
      ensures QuietCall(w.procs[pid])
    {
      ActiveCallIsQuiet(w, w.procs[pid]);
    }
  }

  lemma ActiveCallIsQuiet(w: World, p: Proc)
    requires Shaped(p) && Compatible(p) && (InLock(p) ==> View(p, w.ledger, w.clock)) && FlightActive(w.ledger, w.clock)
    ensures QuietCall(p)
  {
  }

  /** Where the drains of the flight open at world i begin. */
  ghost function FirstDrain(w: World): int {
    |w.hist.drains| - (if w.ledger.phase == Receiving then 1 else 0)
  }

  /** From world i to world k each accepted non-empty drain of the flight was
      listed less than five minutes before the next one, and the last one less
      than five minutes before the end. */
  ghost predicate Renewed(ws: seq<World>, i: nat, k: nat)
    requires i <= k < |ws|
  {
    forall n | FirstDrain(ws[i]) <= n < |ws[k].hist.drains| :: RenewedAfter(ws[k], n)
  }

  predicate RenewedAfter(w: World, n: int) {
    0 <= n < |w.hist.drains| ==>
      (if n + 1 < |w.hist.drains| then w.hist.drains[n + 1] else w.clock) < w.hist.drains[n] + 300_000
  }

  /** A flight stays open and its call decide on a live lease. */
  lemma LeaseHolds(ws: seq<World>, acts: seq<Action>, i: nat, m: nat, k: nat, pid: Pid)
    requires IsRun(ws, acts) && i <= m <= k < |ws| && Renewed(ws, i, k)
    requires Quiet(ws[m]) && (ws[m].ledger.phase == Receiving ==> |ws[m].hist.drains| > FirstDrain(ws[i]))
    requires pid in ws[m].procs && ws[m].procs[pid].pc == Choose
    ensures FlightActive(ws[m].ledger, ws[m].clock)
  {
    LockDiscipline(ws, acts, m);
    LeasesAreRecorded(ws, acts, m);
    var w, v := ws[m], ws[k];
    NoneObserves(w, pid);
    LaterDrains(ws, acts, m, k, w.clock);
    if w.ledger.phase == Receiving {
      var n := |w.hist.drains| - 1;
      assert v.hist.drains[n] == w.hist.drains[n];
      assert RenewedAfter(v, n);
    }
  }

  lemma NoneObserves(w: World, pid: Pid)
    requires Disciplined(w) && pid in w.procs && w.procs[pid].pc == Choose
    ensures forall q | q in w.procs :: w.procs[q].pc != WriteObserved
  {
    assert InLock(w.procs[pid]);
    assert forall q | q in w.procs && w.procs[q].pc == WriteObserved :: InLock(w.procs[q]);
  }

  lemma PlanIsQuiet(w: World, q: Proc, c: Choice)
    requires Shaped(q) && QuietCall(q) && (InLock(q) ==> View(q, w.ledger, w.clock))
    requires w.address == Some(2) && (q.pc == Choose ==> FlightActive(w.ledger, w.clock))
    ensures QuietCall(Plan(w, q, c).0)
    ensures !Plan(w, q, c).1.Hand?
  {
    if Notifying(q.pc) { NotifyIsQuiet(w, q, c); }
    else if q.pc != Return { OutsideNotifying(w, q, c); }
  }

  lemma NotifyIsQuiet(w: World, q: Proc, c: Choice)
    requires Shaped(q) && Notifying(q.pc) && QuietCall(q) && View(q, w.ledger, w.clock)
    requires w.address == Some(2) && (q.pc == Choose ==> FlightActive(w.ledger, w.clock))
    ensures QuietCall(PlanNotify(w, q, c).0)
    ensures !PlanNotify(w, q, c).1.Hand?
  {
  }

  lemma CallIsQuiet(w: World, pid: Pid, p: Proc, e: Effect)
    requires Disciplined(w) && Quiet(w) && pid in w.procs && Possible(w, pid, e)
    requires SaveStep(w, w.procs[pid], p, e) && !e.Hand? && (!e.Leave? ==> QuietCall(p))
    requires e.Save? && e.kind == Observing ==> e.ledger.coalescing
    requires LedgerAfter(w.ledger, e).phase != Received
    ensures Quiet(Apply(w, pid, p, e))
    ensures |Apply(w, pid, p, e).hist.handed| == |w.hist.handed|
    ensures Apply(w, pid, p, e).ledger.phase == Receiving ==>
              w.ledger.phase == Receiving || |Apply(w, pid, p, e).hist.drains| > |w.hist.drains|
  {
    EffectOnLock(w, pid, p, e);
    EffectOnCalls(w, pid, p, e);
    EffectOnIdentities(w, pid, p, e);
    EffectOnDrains(w, pid, p, e);
  }

  lemma StepStaysQuiet(w: World, a: Action, v: World)
    requires Disciplined(w) && Quiet(w) && w.address == Some(2) && Enabled(w, a)
    requires v == Next(w, a) && v.ledger.phase != Received
    requires a.Advance? && w.procs[a.pid].pc == Choose ==> FlightActive(w.ledger, w.clock)
    ensures Quiet(v) && |v.hist.handed| == |w.hist.handed|
    ensures v.ledger.phase == Receiving ==> w.ledger.phase == Receiving || |v.hist.drains| > |w.hist.drains|
  {
    if a.Advance? {
      var q := w.procs[a.pid];
      var (p, e) := Plan(w, q, a.choice);
      PlanIsSaveStep(w, q, a.choice);
      PlanIsQuiet(w, q, a.choice);
      PlanSavesOwn(w, q, a.choice);
      EffectOnLock(w, a.pid, p, e);
      CallIsQuiet(w, a.pid, p, e);
    }
  }

  lemma {:induction false} StaysQuiet(ws: seq<World>, acts: seq<Action>, i: nat, m: nat, k: nat)
    requires IsRun(ws, acts) && i <= m <= k < |ws| && FlightActive(ws[i].ledger, ws[i].clock)
    requires Modernized(ws, i, k) && AllCompatible(ws[i])
    requires Renewed(ws, i, k) && forall j | i <= j <= k :: ws[j].ledger.phase != Received
    ensures Quiet(ws[m]) && |ws[m].hist.handed| == |ws[i].hist.handed|
    ensures |ws[m].hist.drains| >= |ws[i].hist.drains|
    ensures ws[m].ledger.phase == Receiving ==> |ws[m].hist.drains| > FirstDrain(ws[i])
    decreases m
  {
    if m == i {
      ActiveIsQuiet(ws, acts, i);
      LeasesAreRecorded(ws, acts, i);
    } else {
      StaysQuiet(ws, acts, i, m - 1, k);
      LockDiscipline(ws, acts, m - 1);
      DecidesOnLease(ws, acts, i, m - 1, k);
      StepStaysQuiet(ws[m - 1], acts[m - 1], ws[m]);
      DrainsGrow(ws[m - 1], acts[m - 1]);
    }
  }

  /** A step that decides, decides on an active flight. */
  lemma DecidesOnLease(ws: seq<World>, acts: seq<Action>, i: nat, m: nat, k: nat)
    requires IsRun(ws, acts) && i <= m < k < |ws| && Renewed(ws, i, k)
    requires Quiet(ws[m]) && (ws[m].ledger.phase == Receiving ==> |ws[m].hist.drains| > FirstDrain(ws[i]))
    ensures acts[m].Advance? && ws[m].procs[acts[m].pid].pc == Choose ==> FlightActive(ws[m].ledger, ws[m].clock)
  {
    if acts[m].Advance? && ws[m].procs[acts[m].pid].pc == Choose { LeaseHolds(ws, acts, i, m, k, acts[m].pid); }
  }

  lemma DrainsGrow(w: World, a: Action)
    requires Enabled(w, a)
    ensures |w.hist.drains| <= |Next(w, a).hist.drains|
  {
    if a.Advance? {
      var (p, e) := Plan(w, w.procs[a.pid], a.choice);
      EffectOnDrains(w, a.pid, p, e);
    }
  }

  /** Lease renewal: from a moment at which a flight is active until it is
      closed, while accepted non-empty drains are less than five minutes apart
      and the address stays at protocol 2, no notify submits a hint, however
      pushes, notifies, drains and other receivers interleave. A hint nobody has
      drained yet needs no renewal. Before that moment the address may have been
      anything, as long as no notify still running has read another protocol. */
  lemma RenewedFlightAbsorbs(ws: seq<World>, acts: seq<Action>, i: nat, k: nat)
    requires IsRun(ws, acts) && i <= k < |ws| && FlightActive(ws[i].ledger, ws[i].clock)
    requires Modernized(ws, i, k) && AllCompatible(ws[i])
    requires Renewed(ws, i, k) && forall j | i <= j <= k :: ws[j].ledger.phase != Received
    ensures |ws[k].hist.handed| == |ws[i].hist.handed|
    ensures FlightActive(ws[k].ledger, ws[k].clock)
  {
    StaysQuiet(ws, acts, i, k, k);
    LeasesAreRecorded(ws, acts, k);
    assert ws[k].ledger.phase == Receiving ==> RenewedAfter(ws[k], |ws[k].hist.drains| - 1);
  }

  /** With the address at protocol 2 from the start, nothing is asked of the
      calls. */
  lemma RenewedFlightAbsorbsThroughout(ws: seq<World>, acts: seq<Action>, i: nat, k: nat)
    requires IsRun(ws, acts) && i <= k < |ws| && FlightActive(ws[i].ledger, ws[i].clock) && Modernized(ws, 0, k)
    requires Renewed(ws, i, k) && forall j | i <= j <= k :: ws[j].ledger.phase != Received
    ensures |ws[k].hist.handed| == |ws[i].hist.handed|
    ensures FlightActive(ws[k].ledger, ws[k].clock)
  {
    forall pid | pid in ws[i].procs
      ensures Compatible(ws[i].procs[pid])
    {
      CallsAreCompatible(ws, acts, i, pid);
    }
    RenewedFlightAbsorbs(ws, acts, i, k);
  }
}
