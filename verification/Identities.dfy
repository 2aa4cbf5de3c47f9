/** Notice identities: a spent one is never sent again and never claims bodies
    again, and a hint the host may hold is not forgotten. */
module Identities {
  import opened MailFiles
  import opened Ledgers
  import opened Protocol
  import opened Exclusion
  import opened Acquisition

  /** How an identity about to be reserved relates to those already used. */
  ghost predicate Drawn(w: World, p: Proc) {
    p.pc == WriteSubmitting && p.st.id.Some? ==>
      && p.st.id.value !in w.hist.observed
      && (p.st.id.value.Random? ==> p.st.id.value.nonce in w.hist.nonces)
      && (p.st.id.value.Random? && p.st.id.value in w.hist.recorded ==>
            p.st.id == w.ledger.id && (w.ledger.phase == Failed || Ambiguous(w.ledger.phase)))
  }

  /** The stored ledger and the sets of identities stay in step. */
  ghost predicate Consistent(w: World) {
    && (forall x | x in w.hist.recorded && x.Random? :: x.nonce in w.hist.nonces)
    && (w.ledger.id.Some? ==> w.ledger.id.value in w.hist.recorded)
    && (w.ledger.protocol == 2 && w.ledger.id.Some? ==> w.ledger.id.value.Random?)
    && (forall x | x in w.hist.observed :: x in w.hist.recorded && x.Random?)
    && (forall x | x in w.hist.observed && w.ledger.id == Some(x) ::
        w.ledger.phase == Receiving || w.ledger.phase == Received)
    && (w.ledger.phase == Receiving || w.ledger.phase == Received ==>
        w.ledger.id.Some? && w.ledger.id.value in w.hist.observed)
    && (w.ledger.phase == Blank ==> w.ledger.id == None)
    && (forall n | 0 <= n < |w.hist.handed| :: w.hist.handed[n].id in w.hist.recorded)
  }

  ghost predicate Traced(w: World) {
    Consistent(w) && forall pid | pid in w.procs :: Drawn(w, w.procs[pid])
  }

  lemma ChooseDraws(w: World, q: Proc, c: Choice)
    requires Traced(w) && Shaped(q) && q.pc == Choose && View(q, w.ledger, w.clock)
    requires Possible(w, 0, PlanChoice(w, q, c).1)
    ensures var (p, e) := PlanChoice(w, q, c);
            e.Draw? ==> Drawn(w.(hist := w.hist.(nonces := w.hist.nonces + {c.nonce})), p)
    ensures var (p, e) := PlanChoice(w, q, c);
            (p.pc == WriteSubmitting <==> e.Draw?) && (e.Draw? ==> e.nonce == c.nonce)
  {
  }

  /** What a step may do to the ledger's identity and phase. */
  ghost predicate SaveStep(w: World, q: Proc, p: Proc, e: Effect) {
    && (p.pc == WriteSubmitting ==> e.Draw? && q.pc == Choose)
    && (e.Draw? ==> q.pc == Choose)
    && (e.Hand? ==> q.pc == CallHost && Some(e.sub.id) == q.st.id)
    && (e.Save? ==>
          match e.kind
          case Absorbing => e.ledger == w.ledger.(notified := e.ledger.notified) && !Ambiguous(w.ledger.phase)
          case Starting => q.pc == WriteSubmitting && e.ledger == q.st && e.ledger.phase == Submitting
          case Settling =>
            && w.ledger.phase == Submitting && e.ledger.id == w.ledger.id && e.ledger.protocol == w.ledger.protocol
            && e.ledger.phase in {Failed, Uncertain, Queued, Written, Deferred}
          case Observing => q.call.Receive? && q.call.notice.Some? && Accepts(w.ledger, q.call.notice.value)
                            && (e.ledger.phase == Receiving || e.ledger.phase == Received)
                            && e.ledger.id == w.ledger.id && e.ledger.protocol == w.ledger.protocol
          case Closing =>
            && e.ledger == w.ledger.(phase := Received, drainUntil := e.ledger.drainUntil)
            && w.ledger.phase == Receiving)
  }

  lemma NotifySaves(w: World, q: Proc, c: Choice)
    requires Shaped(q) && Notifying(q.pc) && View(q, w.ledger, w.clock)
    ensures var (p, e) := PlanNotify(w, q, c); SaveStep(w, q, p, e)
  {
  }

  lemma ClaimingSaves(w: World, q: Proc, c: Choice)
    requires Shaped(q) && Claiming(q.pc) && (InLock(q) ==> View(q, w.ledger, w.clock))
    ensures var (p, e) := PlanClaiming(w, q, c); SaveStep(w, q, p, e)
  {
  }

  lemma PlanIsSaveStep(w: World, q: Proc, c: Choice)
    requires Shaped(q) && (InLock(q) ==> View(q, w.ledger, w.clock))
    ensures SaveStep(w, q, Plan(w, q, c).0, Plan(w, q, c).1)
  {
    if Notifying(q.pc) { NotifySaves(w, q, c); }
    else if Claiming(q.pc) { ClaimingSaves(w, q, c); }
  }

  /** The history a step of a call leaves behind, as far as identities go. */
  lemma EffectOnIdentities(w: World, pid: Pid, p: Proc, e: Effect)
    requires Possible(w, pid, e)
    ensures var h, g := w.hist, Apply(w, pid, p, e).hist;
            && g.nonces == (if e.Draw? then h.nonces + {e.nonce} else h.nonces)
            && g.recorded == (if e.Save? && e.kind == Starting then h.recorded + NoticeSet(e.ledger.id) else h.recorded)
            && g.observed ==
                 (if e.Save? && e.kind == Observing then h.observed + NoticeSet(e.ledger.id) else h.observed)
            && |g.handed| == |h.handed| + (if e.Hand? then 1 else 0)
            && (forall n | 0 <= n < |h.handed| :: g.handed[n].id == h.handed[n].id)
            && (e.Hand? ==> g.handed[|h.handed|] == e.sub)
  {
  }

  lemma CallConsistent(w: World, v: World, q: Proc, p: Proc, e: Effect)
    requires Consistent(w) && Shaped(q) && Drawn(w, q) && SaveStep(w, q, p, e)
    requires InLock(q) ==> View(q, w.ledger, w.clock)
    requires v.ledger == LedgerAfter(w.ledger, e)
    requires w.hist.nonces <= v.hist.nonces
    requires v.hist.recorded == (if e.Save? && e.kind == Starting then w.hist.recorded + NoticeSet(e.ledger.id)
               else w.hist.recorded)
    requires v.hist.observed == (if e.Save? && e.kind == Observing then w.hist.observed + NoticeSet(e.ledger.id)
               else w.hist.observed)
    requires |v.hist.handed| == |w.hist.handed| + (if e.Hand? then 1 else 0)
    requires forall n | 0 <= n < |w.hist.handed| :: v.hist.handed[n].id == w.hist.handed[n].id
    requires e.Hand? ==> v.hist.handed[|w.hist.handed|] == e.sub
    ensures Consistent(v)
  {
  }

  lemma CallTraced(w: World, pid: Pid, c: Choice)
    requires Disciplined(w) && Traced(w) && Enabled(w, Advance(pid, c))
    ensures Traced(Next(w, Advance(pid, c)))
  {
    var q := w.procs[pid];
    var (p, e) := Plan(w, q, c);
    PlanIsSaveStep(w, q, c);
    PlanIsLockStep(w, q, c);
    if q.pc == Choose { ChooseDraws(w, q, c); }
    CallKeepsTraces(w, pid, p, e);
  }

  lemma CallKeepsTraces(w: World, pid: Pid, p: Proc, e: Effect)
    requires Disciplined(w) && Traced(w) && pid in w.procs && Possible(w, pid, e)
    requires LockStep(w.procs[pid], p, e) && SaveStep(w, w.procs[pid], p, e)
    requires e.Draw? ==> Drawn(w.(hist := w.hist.(nonces := w.hist.nonces + {e.nonce})), p)
    ensures Traced(Apply(w, pid, p, e))
  {
    var v := Apply(w, pid, p, e);
    EffectOnIdentities(w, pid, p, e);
    EffectOnLock(w, pid, p, e);
    EffectOnCalls(w, pid, p, e);
    CallConsistent(w, v, w.procs[pid], p, e);
    forall other | other in v.procs
      ensures Drawn(v, v.procs[other])
    {
      if other != pid {
        var r := w.procs[other];
        if r.pc == WriteSubmitting {
          assert InLock(r) && w.lock == Some(other);
          assert !e.Save? && !e.Draw?;
          assert Drawn(w, r);
        }
      }
    }
  }

  lemma StepTraced(w: World, a: Action)
    requires Disciplined(w) && Traced(w) && Enabled(w, a)
    ensures Traced(Next(w, a))
  {
    if a.Advance? {
      CallTraced(w, a.pid, a.choice);
    } else {
      var v := Next(w, a);
      assert v.ledger == w.ledger;
      forall pid | pid in v.procs
        ensures Drawn(v, v.procs[pid])
      {
        if !(a.Start? && pid == a.pid) { assert Drawn(w, w.procs[pid]); }
      }
    }
  }

  lemma {:induction false} IdentitiesAreTraced(ws: seq<World>, acts: seq<Action>, k: nat)
    requires IsRun(ws, acts) && k < |ws|
    ensures Disciplined(ws[k]) && Traced(ws[k])
  {
    LockDiscipline(ws, acts, k);
    if k > 0 {
      IdentitiesAreTraced(ws, acts, k - 1);
      StepTraced(ws[k - 1], acts[k - 1]);
    }
  }

  /** Later history: observations stay, earlier host calls keep their identity,
      and newer ones carry none observed before. */
  ghost predicate Extends(h: History, g: History) {
    && h.observed <= g.observed
    && |h.handed| <= |g.handed|
    && (forall n | 0 <= n < |h.handed| :: g.handed[n].id == h.handed[n].id)
    && (forall n | |h.handed| <= n < |g.handed| :: g.handed[n].id !in h.observed)
  }

  lemma StepExtends(w: World, a: Action)
    requires Disciplined(w) && Traced(w) && Enabled(w, a)
    ensures Extends(w.hist, Next(w, a).hist)
  {
    if a.Advance? {
      var (p, e) := Plan(w, w.procs[a.pid], a.choice);
      PlanIsSaveStep(w, w.procs[a.pid], a.choice);
      EffectOnIdentities(w, a.pid, p, e);
      if e.Hand? {
        assert View(w.procs[a.pid], w.ledger, w.clock);
        assert w.ledger.id == Some(e.sub.id);
      }
    }
  }

  lemma ExtendsTransitive(a: History, b: History, c: History)
    requires Extends(a, b) && Extends(b, c)
    ensures Extends(a, c)
  {
    forall n | |a.handed| <= n < |c.handed|
      ensures c.handed[n].id !in a.observed
    {
      if n < |b.handed| { assert c.handed[n].id == b.handed[n].id; }
    }
  }

  /** An identity a receiver has observed is never sent to the host again, in
      any continuation of the run. */
  lemma {:induction false} ObservedIsNeverResent(ws: seq<World>, acts: seq<Action>, i: nat, k: nat)
    requires IsRun(ws, acts) && i <= k < |ws|
    ensures Extends(ws[i].hist, ws[k].hist)
    decreases k
  {
    if i < k {
      ObservedIsNeverResent(ws, acts, i, k - 1);
      IdentitiesAreTraced(ws, acts, k - 1);
      StepExtends(ws[k - 1], acts[k - 1]);
      ExtendsTransitive(ws[i].hist, ws[k - 1].hist, ws[k].hist);
    }
  }

  /** An identity that was in the ledger and has been superseded or closed. */
  ghost predicate Dead(w: World, x: NoticeId) {
    && x.Random?
    && x in w.hist.recorded
    && (w.ledger.id == Some(x) ==> w.ledger.phase == Received)
  }

  lemma CallKeepsDead(w: World, pid: Pid, p: Proc, e: Effect, x: NoticeId)
    requires Disciplined(w) && Traced(w) && Dead(w, x) && pid in w.procs && Possible(w, pid, e)
    requires SaveStep(w, w.procs[pid], p, e)
    ensures Dead(Apply(w, pid, p, e), x)
  {
    EffectOnIdentities(w, pid, p, e);
    EffectOnLock(w, pid, p, e);
    assert Drawn(w, w.procs[pid]);
  }

  lemma StepKeepsDead(w: World, a: Action, x: NoticeId)
    requires Disciplined(w) && Traced(w) && Dead(w, x) && Enabled(w, a)
    ensures Dead(Next(w, a), x)
  {
    if a.Advance? {
      var (p, e) := Plan(w, w.procs[a.pid], a.choice);
      PlanIsSaveStep(w, w.procs[a.pid], a.choice);
      CallKeepsDead(w, a.pid, p, e, x);
    }
  }

  lemma {:induction false} DeadStaysDead(ws: seq<World>, acts: seq<Action>, i: nat, k: nat, x: NoticeId)
    requires IsRun(ws, acts) && i <= k < |ws| && Dead(ws[i], x)
    ensures Dead(ws[k], x)
    decreases k
  {
    if i < k {
      DeadStaysDead(ws, acts, i, k - 1, x);
      IdentitiesAreTraced(ws, acts, k - 1);
      StepKeepsDead(ws[k - 1], acts[k - 1], x);
    }
  }

  /** A receive for a dead identity, at any later time, returns at once without
      a body and changes neither the ledger nor a file. */
  lemma DeadNoticeIsInert(ws: seq<World>, acts: seq<Action>, i: nat, k: nat, x: NoticeId, pid: Pid)
    requires IsRun(ws, acts) && i <= k < |acts| && Dead(ws[i], x)
    requires acts[k].Advance? && acts[k].pid == pid
    requires ws[k].procs[pid].pc == ReadLedger && ws[k].procs[pid].call.Receive?
    requires ws[k].procs[pid].call.notice == Some(x)
    ensures pid in ws[k + 1].procs && ws[k + 1].procs[pid].pc == Return
    ensures ws[k + 1].procs[pid].got == []
    ensures ws[k + 1].files == ws[k].files && ws[k + 1].ledger == ws[k].ledger
  {
    DeadStaysDead(ws, acts, i, k, x);
    CallsAreAccounted(ws, acts, k);
    assert Bounded(ws[k].procs[pid]);
  }

  /** Reserving a submission drops an identity no receiver has observed exactly
      when the address is not protocol 2 or the last attempt had been taken as
      delivered: written, deferred, or queued without coalescing. */
  lemma SupersededUnobserved(w: World, pid: Pid)
    requires Disciplined(w) && Traced(w) && pid in w.procs && w.procs[pid].pc == WriteSubmitting
    requires w.ledger.id.Some? && w.ledger.protocol == 2 && w.ledger.id.value !in w.hist.observed
    ensures w.procs[pid].st.id != w.ledger.id <==>
              || !w.procs[pid].compatible
              || w.ledger.phase == Written
              || w.ledger.phase == Deferred
              || w.ledger.phase == Queued
  {
    var p := w.procs[pid];
    assert InLock(p) && View(p, w.ledger, w.clock);
    assert Drawn(w, p);
  }
}
