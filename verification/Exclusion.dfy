/** What the lock buys: the ledger a call read stays the stored one until the
    call itself writes, whatever other processes do or wherever they crash. */
module Exclusion {
  import opened MailFiles
  import opened Ledgers
  import opened Protocol

  /** The operations a notify or receive performs between locking and return. */
  predicate InLock(p: Proc) {
    && (p.call.Notify? || p.call.Receive?)
    && p.pc != Lock
    && p.pc != Return
  }

  predicate Noticed(p: Proc) {
    p.call.Receive? && p.call.notice.Some?
  }

  /** A notify returns success only while it still holds the lock. */
  ghost predicate Exclusive(w: World) {
    && (w.lock.Some? ==> w.lock.value in w.procs)
    && (forall pid | pid in w.procs && InLock(w.procs[pid]) :: w.lock == Some(pid))
    && (forall pid | pid in w.procs && Succeeded(w.procs[pid]) :: w.lock == Some(pid))
  }

  predicate Succeeded(p: Proc) {
    p.call.Notify? && p.pc == Return && p.outcome == Ok
  }

  /** How the locals of the lock holder relate to the stored ledger. */
  ghost predicate View(p: Proc, l: Ledger, clock: int) {
    match p.pc
    case Scan => ReadView(p, l)
    case ReadItem => ReadView(p, l)
    case ProbeClaimed => p.st == l
    case ProbeDone => p.st == l
    case ReadAddress => p.st == l && p.call.Notify? && p.call.item in p.ids
    case Choose => p.st == l && p.call.Notify? && p.call.item in p.ids
    case WriteAbsorbed =>
      && p.st == l.(notified := p.ids)
      && p.call.Notify? && p.call.item in p.ids
      && p.compatible && FlightActive(l, p.now)
    case WriteSubmitting =>
      && p.call.Notify? && p.call.item in p.ids
      && Decide(l, p.call.item, p.compatible, p.st.generatedAt) == Submit
      && p.st.generatedAt <= clock
      && (exists nonce :: p.st == Begin(l, p.compatible, p.ids, p.st.generatedAt, nonce))
    case CallHost => p.st == l && HoldsReservation(p, l, clock)
    case WriteReceipt =>
      && HoldsReservation(p, l, clock)
      && (exists answer :: answer != AnsInvalid && p.st == Settle(l, p.compatible, p.ids, answer)
                           && p.outcome == if Accepted(answer) then Ok else OtherError)
    case WriteObserved => ReadView(p, l) && p.now <= clock && p.todo == p.ids
    case Rename => DrainView(p, l)
    case ReadBody => DrainView(p, l)
    case WriteClosed =>
      && Noticed(p) && p.got == [] && p.todo == [] && p.st == Close(l, p.now)
      && Draining(p, l) && l.phase == Receiving
    case _ => true
  }

  ghost predicate ReadView(p: Proc, l: Ledger) {
    && (p.call.Notify? ==> p.st == l)
    && (Noticed(p) ==> p.st == l && Accepts(l, p.call.notice.value))
  }

  predicate HoldsReservation(p: Proc, l: Ledger, clock: int) {
    && p.call.Notify? && p.call.item in p.ids
    && l.phase == Submitting
    && l.generatedAt <= clock
    && l.attempt == p.ids
    && !l.coalescing
    && l.protocol == (if p.compatible then 2 else 0)
  }

  predicate Draining(p: Proc, l: Ledger)
    requires Noticed(p)
  {
    && l.id == p.call.notice
    && l.protocol == 2
    && l.coalescing
    && (l.phase == Receiving || l.phase == Received)
  }

  predicate DrainView(p: Proc, l: Ledger) {
    Noticed(p) ==> p.st == l && Draining(p, l)
  }

  ghost predicate InSync(w: World) {
    forall pid | pid in w.procs && InLock(w.procs[pid]) :: View(w.procs[pid], w.ledger, w.clock)
  }

  /** Every running call is at an operation its kind of call performs. */
  ghost predicate WellShaped(w: World) {
    forall pid | pid in w.procs :: Shaped(w.procs[pid])
  }

  /** The ledger a step leaves behind. */
  function LedgerAfter(l: Ledger, e: Effect): Ledger {
    if e.Save? then e.ledger else l
  }

  ghost predicate Fits(w: World, p: Proc, e: Effect) {
    && Shaped(p)
    && (InLock(p) ==> View(p, LedgerAfter(w.ledger, e), w.clock))
  }

  lemma ListingFits(w: World, q: Proc, c: Choice)
    requires Shaped(q) && Listing(q.pc) && (InLock(q) ==> View(q, w.ledger, w.clock))
    ensures Fits(w, PlanListing(w, q, c).0, PlanListing(w, q, c).1)
  {
    if q.pc == ReadItem { ReadingFits(w, q, c); }
    else if q.pc == Scan { ScanningStays(w, q, c); }
  }

  lemma ReadingFits(w: World, q: Proc, c: Choice)
    requires Shaped(q) && q.pc == ReadItem && View(q, w.ledger, w.clock)
    ensures Fits(w, PlanListing(w, q, c).0, PlanListing(w, q, c).1)
  {
  }

  lemma ChoiceFits(w: World, q: Proc, c: Choice)
    requires Shaped(q) && q.pc == Choose && View(q, w.ledger, w.clock)
    ensures Fits(w, PlanChoice(w, q, c).0, PlanChoice(w, q, c).1)
  {
    var p := PlanChoice(w, q, c).0;
    if p.pc == WriteSubmitting {
      assert p.st == Begin(w.ledger, p.compatible, p.ids, p.st.generatedAt, c.nonce);
    }
  }

  lemma HostFits(w: World, q: Proc, c: Choice)
    requires Shaped(q) && q.pc == CallHost && View(q, w.ledger, w.clock)
    ensures Fits(w, PlanHost(w.clock, q, c).0, PlanHost(w.clock, q, c).1)
  {
    var p := PlanHost(w.clock, q, c).0;
    if p.pc == WriteReceipt {
      assert c.answer != AnsInvalid && p.st == Settle(w.ledger, p.compatible, p.ids, c.answer);
    }
  }

  lemma NotifyingFits(w: World, q: Proc, c: Choice)
    requires Shaped(q) && Notifying(q.pc) && View(q, w.ledger, w.clock)
    ensures Fits(w, PlanNotify(w, q, c).0, PlanNotify(w, q, c).1)
  {
    if q.pc == Choose { ChoiceFits(w, q, c); }
    if q.pc == CallHost { HostFits(w, q, c); }
  }

  lemma RenameFits(w: World, q: Proc, c: Choice)
    requires Shaped(q) && q.pc == Rename && (InLock(q) ==> View(q, w.ledger, w.clock))
    ensures Fits(w, PlanRename(w, q, c).0, PlanRename(w, q, c).1)
  {
  }

  lemma BodyFits(w: World, q: Proc, c: Choice)
    requires Shaped(q) && q.pc == ReadBody && (InLock(q) ==> View(q, w.ledger, w.clock))
    ensures Fits(w, PlanBody(w, q, c), Nothing)
  {
  }

  lemma ClaimingFits(w: World, q: Proc, c: Choice)
    requires Shaped(q) && Claiming(q.pc) && (InLock(q) ==> View(q, w.ledger, w.clock))
    ensures Fits(w, PlanClaiming(w, q, c).0, PlanClaiming(w, q, c).1)
  {
    if q.pc == Rename { RenameFits(w, q, c); }
    if q.pc == ReadBody { BodyFits(w, q, c); }
  }

  lemma PlanFits(w: World, q: Proc, c: Choice)
    requires Shaped(q) && (InLock(q) ==> View(q, w.ledger, w.clock))
    ensures Fits(w, Plan(w, q, c).0, Plan(w, q, c).1)
  {
    if Listing(q.pc) { ListingFits(w, q, c); }
    else if Notifying(q.pc) { NotifyingFits(w, q, c); }
    else if Claiming(q.pc) { ClaimingFits(w, q, c); }
  }

  /** A call enters the locked section only by taking the lock, and writes the
      ledger only inside it. */
  ghost predicate LockStep(q: Proc, p: Proc, e: Effect) {
    && ((InLock(p) || Succeeded(p)) && !e.Leave? ==> InLock(q) || e == Acquire)
    && (e == Acquire ==> q.pc == Lock)
    && (e.Save? ==> InLock(q))
    && p.call == q.call
  }

  lemma PlanIsLockStep(w: World, q: Proc, c: Choice)
    requires Shaped(q)
    ensures LockStep(q, Plan(w, q, c).0, Plan(w, q, c).1)
  {
    if Notifying(q.pc) { NotifyingIsLockStep(w, q, c); }
    else if q.pc != Return { OutsideNotifying(w, q, c); }
  }

  lemma NotifyingIsLockStep(w: World, q: Proc, c: Choice)
    requires Shaped(q) && Notifying(q.pc)
    ensures LockStep(q, PlanNotify(w, q, c).0, PlanNotify(w, q, c).1)
  {
  }

  lemma EffectOnLock(w: World, pid: Pid, p: Proc, e: Effect)
    requires Possible(w, pid, e)
    ensures var v := Apply(w, pid, p, e);
            && v.clock == w.clock && v.address == w.address
            && v.ledger == LedgerAfter(w.ledger, e)
            && v.lock == (if e == Acquire then Some(pid) else if e.Leave? && w.lock == Some(pid) then None else w.lock)
  {
  }

  lemma CallExclusive(w: World, pid: Pid, p: Proc, e: Effect)
    requires Exclusive(w) && pid in w.procs && Possible(w, pid, e)
    requires LockStep(w.procs[pid], p, e)
    ensures Exclusive(Apply(w, pid, p, e))
  {
    EffectOnLock(w, pid, p, e);
    EffectOnCalls(w, pid, p, e);
  }

  lemma StepExclusive(w: World, a: Action)
    requires Exclusive(w) && Enabled(w, a)
    ensures Exclusive(Next(w, a))
  {
    if a.Advance? {
      var (p, e) := Plan(w, w.procs[a.pid], a.choice);
      PlanIsLockStep(w, w.procs[a.pid], a.choice);
      CallExclusive(w, a.pid, p, e);
    }
    assert w.lock.Some? ==> w.lock.value in w.procs;
  }

  lemma ViewLater(p: Proc, l: Ledger, now: int, later: int)
    requires View(p, l, now) && now <= later
    ensures View(p, l, later)
  {
  }

  /** A call other than the lock holder leaves the holder's view intact. */
  lemma CallInSync(w: World, pid: Pid, p: Proc, e: Effect)
    requires Exclusive(w) && InSync(w) && pid in w.procs && Possible(w, pid, e)
    requires LockStep(w.procs[pid], p, e) && (!e.Leave? ==> Fits(w, p, e))
    ensures InSync(Apply(w, pid, p, e))
  {
    EffectOnLock(w, pid, p, e);
    EffectOnCalls(w, pid, p, e);
    var v := Apply(w, pid, p, e);
    forall q | q in v.procs && InLock(v.procs[q])
      ensures View(v.procs[q], v.ledger, v.clock)
    {
      if q != pid {
        assert w.lock == Some(q);
        assert !e.Save?;
      }
    }
  }

  ghost predicate Disciplined(w: World) {
    Exclusive(w) && InSync(w) && WellShaped(w)
  }

  lemma StepDisciplined(w: World, a: Action)
    requires Disciplined(w) && Enabled(w, a)
    ensures Disciplined(Next(w, a))
  {
    StepExclusive(w, a);
    var v := Next(w, a);
    if a.Advance? {
      var (p, e) := Plan(w, w.procs[a.pid], a.choice);
      PlanIsLockStep(w, w.procs[a.pid], a.choice);
      PlanFits(w, w.procs[a.pid], a.choice);
      CallInSync(w, a.pid, p, e);
    } else {
      EnvironmentInSync(w, a);
    }
    forall q | q in v.procs
      ensures Shaped(v.procs[q])
    {
      CallAfter(w, a, q);
      if a.Advance? && q == a.pid { PlanFits(w, w.procs[q], a.choice); }
    }
  }

  lemma EnvironmentInSync(w: World, a: Action)
    requires InSync(w) && Enabled(w, a) && !a.Advance?
    ensures InSync(Next(w, a))
  {
    var v := Next(w, a);
    forall q | q in v.procs && InLock(v.procs[q])
      ensures View(v.procs[q], v.ledger, v.clock)
    {
      if !(a.Start? && q == a.pid) { ViewLater(w.procs[q], w.ledger, w.clock, v.clock); }
    }
  }

  lemma {:induction false} LockDiscipline(ws: seq<World>, acts: seq<Action>, k: nat)
    requires IsRun(ws, acts) && k < |ws|
    ensures Disciplined(ws[k])
  {
    if k > 0 {
      LockDiscipline(ws, acts, k - 1);
      StepDisciplined(ws[k - 1], acts[k - 1]);
    }
  }

  /** No reachable call is stuck: each can take its next step, except that one
      waiting for the lock needs the lock to be free. */
  lemma EveryCallCanStep(ws: seq<World>, acts: seq<Action>, k: nat, pid: Pid, nonce: nat)
    requires IsRun(ws, acts) && k < |ws| && pid in ws[k].procs
    requires ws[k].procs[pid].pc == Lock ==> ws[k].lock == None
    requires nonce !in ws[k].hist.nonces
    ensures Enabled(ws[k], Advance(pid, Choice(false, nonce, AnsQueued)))
  {
    LockDiscipline(ws, acts, k);
    StepIsPossible(ws[k], pid, ws[k].procs[pid], Choice(false, nonce, AnsQueued));
  }

  lemma StepIsPossible(w: World, pid: Pid, q: Proc, c: Choice)
    requires Shaped(q) && c.nonce !in w.hist.nonces && (q.pc == Lock ==> w.lock == None)
    ensures Possible(w, pid, Plan(w, q, c).1)
  {
    if Claiming(q.pc) { ClaimIsPossible(w, pid, q, c); }
  }

  lemma ClaimIsPossible(w: World, pid: Pid, q: Proc, c: Choice)
    requires Shaped(q) && Claiming(q.pc)
    ensures Possible(w, pid, PlanClaiming(w, q, c).1)
  {
  }
}
