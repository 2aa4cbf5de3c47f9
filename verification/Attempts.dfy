/** How often the host can be called while the outcome of earlier calls is
    unknown. A reservation is stamped 30 s or more after the one of an ambiguous
    call; the call itself is made at its stamp or later, so two calls can be
    closer than that by as much as the first one was late. */
module Attempts {
  import opened MailFiles
  import opened Ledgers
  import opened Protocol
  import opened Exclusion
  import opened Identities

  /** After an attempt with no definite result on record whose identity no
      receiver observed, the next reservation is stamped 30 s later or more. A
      call is made after its stamp and before the next one. */
  predicate Spaced(a: Submission, b: Submission) {
    && a.at <= b.stamp
    && (a.settled || a.seen || a.stamp + 30_000 <= b.stamp)
  }

  /** When a reservation may be stamped, given the attempts so far. */
  predicate MayFollow(handed: seq<Submission>, stamp: int) {
    handed != [] ==>
      var last := handed[|handed| - 1];
      last.stamp <= last.at <= stamp && (last.settled || last.seen || last.stamp + 30_000 <= stamp)
  }

  ghost predicate PacedCall(w: World, p: Proc) {
    && (p.pc == WriteSubmitting || p.pc == CallHost ==> MayFollow(w.hist.handed, p.st.generatedAt))
    && (p.pc == WriteReceipt ==>
          && w.hist.handed != []
          && w.ledger.id == Some(w.hist.handed[|w.hist.handed| - 1].id)
          && w.hist.handed[|w.hist.handed| - 1].stamp == w.ledger.generatedAt)
  }

  /** The last attempt has a definite result, was observed, is still reserved
      in the ledger, or is at least 30 s old. */
  ghost predicate LastReserved(w: World) {
    w.hist.handed != [] ==>
      var last := w.hist.handed[|w.hist.handed| - 1];
      && last.stamp <= last.at <= w.clock
      && (|| last.settled
          || last.seen
          || (Ambiguous(w.ledger.phase) && last.stamp <= w.ledger.generatedAt && w.ledger.id == Some(last.id))
          || last.stamp + 30_000 <= w.clock)
  }

  ghost predicate AllSpaced(handed: seq<Submission>) {
    && (forall n | 0 <= n < |handed| :: handed[n].stamp <= handed[n].at)
    && (forall n {:trigger handed[n]} | 0 <= n < |handed| - 1 :: Spaced(handed[n], handed[n + 1]))
  }

  ghost predicate Paced(w: World) {
    && AllSpaced(w.hist.handed)
    && LastReserved(w)
    && (forall pid | pid in w.procs :: PacedCall(w, w.procs[pid]))
  }

  /** What a step of a call may do to the attempts on record. */
  ghost predicate PaceStep(w: World, q: Proc, p: Proc, e: Effect) {
    && (p.pc == WriteSubmitting ==> e.Draw? && MayFollow(w.hist.handed, p.st.generatedAt))
    && (p.pc == CallHost ==> q.pc == WriteSubmitting && p.st == q.st && e.Save?)
    && (p.pc == WriteReceipt ==> e.Hand?)
    && (e.Hand? ==>
          && q.pc == CallHost && e.sub.stamp == q.st.generatedAt && q.st.id == Some(e.sub.id)
          && !e.sub.settled && !e.sub.seen
          && e.sub.stamp <= e.sub.at == w.clock)
  }

  lemma NotifyPaces(w: World, q: Proc, c: Choice)
    requires Shaped(q) && Notifying(q.pc) && View(q, w.ledger, w.clock) && LastReserved(w)
    ensures PaceStep(w, q, PlanNotify(w, q, c).0, PlanNotify(w, q, c).1)
  {
  }

  lemma OnlyNotifySubmits(w: World, q: Proc, c: Choice)
    requires Shaped(q) && !Notifying(q.pc)
    ensures var (p, e) := Plan(w, q, c);
            p.pc != WriteSubmitting && p.pc != CallHost && p.pc != WriteReceipt && !e.Hand?
  {
  }

  lemma PlanPaces(w: World, q: Proc, c: Choice)
    requires Shaped(q) && (InLock(q) ==> View(q, w.ledger, w.clock)) && LastReserved(w)
    ensures PaceStep(w, q, Plan(w, q, c).0, Plan(w, q, c).1)
  {
    if Notifying(q.pc) { NotifyPaces(w, q, c); } else { OnlyNotifySubmits(w, q, c); }
  }

  lemma EffectOnAttempts(w: World, pid: Pid, p: Proc, e: Effect)
    requires Possible(w, pid, e)
    ensures Apply(w, pid, p, e).hist.handed ==
            (if e.Hand? then w.hist.handed + [e.sub]
             else if e.Save? && e.kind == Settling then MarkSettled(w.hist.handed, e.ledger.phase)
             else if e.Save? && e.kind == Observing then MarkSeen(w.hist.handed, e.ledger.id)
             else w.hist.handed)
  {
  }

  lemma MarksKeepSpacing(handed: seq<Submission>, phase: Phase, id: Option<NoticeId>)
    requires AllSpaced(handed)
    ensures AllSpaced(MarkSettled(handed, phase)) && AllSpaced(MarkSeen(handed, id))
  {
    forall n {:trigger Spaced(MarkSettled(handed, phase)[n], MarkSettled(handed, phase)[n + 1])} | 0 <= n < |handed| - 1
      ensures Spaced(MarkSettled(handed, phase)[n], MarkSettled(handed, phase)[n + 1])
    {
      assert Spaced(handed[n], handed[n + 1]);
    }
    forall n {:trigger Spaced(MarkSeen(handed, id)[n], MarkSeen(handed, id)[n + 1])} | 0 <= n < |handed| - 1
      ensures Spaced(MarkSeen(handed, id)[n], MarkSeen(handed, id)[n + 1])
    {
      assert Spaced(handed[n], handed[n + 1]);
    }
  }

  lemma CallSpaced(w: World, pid: Pid, p: Proc, e: Effect)
    requires Paced(w) && pid in w.procs && Possible(w, pid, e) && PaceStep(w, w.procs[pid], p, e)
    ensures AllSpaced(Apply(w, pid, p, e).hist.handed)
  {
    EffectOnAttempts(w, pid, p, e);
    var handed := w.hist.handed;
    if e.Hand? {
      assert PacedCall(w, w.procs[pid]);
      assert forall n | 0 <= n < |handed| :: (handed + [e.sub])[n] == handed[n];
    }
    if e.Save? { MarksKeepSpacing(handed, e.ledger.phase, e.ledger.id); }
  }

  lemma CallReserved(w: World, pid: Pid, p: Proc, e: Effect)
    requires Disciplined(w) && Paced(w) && pid in w.procs && Possible(w, pid, e)
    requires SaveStep(w, w.procs[pid], p, e) && PaceStep(w, w.procs[pid], p, e) && LockStep(w.procs[pid], p, e)
    requires e.Save? && e.kind == Settling ==> w.procs[pid].pc == WriteReceipt && e.ledger == w.procs[pid].st
    ensures LastReserved(Apply(w, pid, p, e))
  {
    EffectOnAttempts(w, pid, p, e);
    EffectOnLock(w, pid, p, e);
    var q := w.procs[pid];
    assert PacedCall(w, q);
    if InLock(q) { assert View(q, w.ledger, w.clock); }
  }

  lemma CallPaced(w: World, pid: Pid, p: Proc, e: Effect, other: Pid)
    requires Disciplined(w) && Paced(w) && pid in w.procs && Possible(w, pid, e)
    requires PaceStep(w, w.procs[pid], p, e) && LockStep(w.procs[pid], p, e)
    requires other in w.procs && (e.Leave? ==> other != pid)
    ensures PacedCall(Apply(w, pid, p, e), if other == pid then p else w.procs[other])
  {
    EffectOnAttempts(w, pid, p, e);
    EffectOnLock(w, pid, p, e);
    var q := w.procs[pid];
    assert PacedCall(w, q) && PacedCall(w, w.procs[other]);
    if InLock(q) { assert View(q, w.ledger, w.clock); }
    if other != pid && InLock(w.procs[other]) { assert w.lock == Some(other) && !InLock(q); }
  }

  lemma StepPaced(w: World, a: Action)
    requires Disciplined(w) && Paced(w) && Enabled(w, a)
    ensures Paced(Next(w, a))
  {
    if a.Advance? {
      var q := w.procs[a.pid];
      var (p, e) := Plan(w, q, a.choice);
      PlanPaces(w, q, a.choice);
      PlanIsSaveStep(w, q, a.choice);
      PlanIsLockStep(w, q, a.choice);
      PlanSettlesOwn(w, q, a.choice);
      CallIsPaced(w, a.pid, p, e);
    } else {
      EnvironmentPaced(w, a);
    }
  }

  lemma PlanSettlesOwn(w: World, q: Proc, c: Choice)
    requires Shaped(q)
    ensures var e := Plan(w, q, c).1; e.Save? && e.kind == Settling ==> e.ledger == q.st && q.pc == WriteReceipt
  {
  }

  lemma CallIsPaced(w: World, pid: Pid, p: Proc, e: Effect)
    requires Disciplined(w) && Paced(w) && pid in w.procs && Possible(w, pid, e)
    requires SaveStep(w, w.procs[pid], p, e) && PaceStep(w, w.procs[pid], p, e) && LockStep(w.procs[pid], p, e)
    requires e.Save? && e.kind == Settling ==> w.procs[pid].pc == WriteReceipt && e.ledger == w.procs[pid].st
    ensures Paced(Apply(w, pid, p, e))
  {
    CallSpaced(w, pid, p, e);
    CallReserved(w, pid, p, e);
    EffectOnCalls(w, pid, p, e);
    forall other | other in Apply(w, pid, p, e).procs
      ensures PacedCall(Apply(w, pid, p, e), Apply(w, pid, p, e).procs[other])
    {
      CallPaced(w, pid, p, e, other);
    }
  }

  lemma PacedCallStable(w: World, v: World, p: Proc)
    requires PacedCall(w, p) && v.hist.handed == w.hist.handed && v.ledger == w.ledger
    ensures PacedCall(v, p)
  {
  }

  lemma EnvironmentPaced(w: World, a: Action)
    requires Paced(w) && Enabled(w, a) && !a.Advance?
    ensures Paced(Next(w, a))
  {
    var v := Next(w, a);
    forall pid | pid in v.procs
      ensures PacedCall(v, v.procs[pid])
    {
      if !(a.Start? && pid == a.pid) { PacedCallStable(w, v, w.procs[pid]); }
    }
  }

  lemma {:induction false} AttemptsArePaced(ws: seq<World>, acts: seq<Action>, k: nat)
    requires IsRun(ws, acts) && k < |ws|
    ensures Disciplined(ws[k]) && Paced(ws[k])
  {
    LockDiscipline(ws, acts, k);
    if k > 0 {
      AttemptsArePaced(ws, acts, k - 1);
      StepPaced(ws[k - 1], acts[k - 1]);
    }
  }

  /** A host call that left no definite result on record, because it ended
      uncertain, crashed, got an invalid receipt or could not be persisted, and
      whose identity no receiver observed before the next host call. */
  predicate Unknown(s: Submission) { !s.settled && !s.seen }

  /** After such a call the next one comes at least 30 s later, less the delay
      between its own stamp and the call: the full 30 s if it was made at its
      stamp. Counted from stamps the interval is always kept. */
  lemma AmbiguousAttemptsAreSpaced(ws: seq<World>, acts: seq<Action>, k: nat, n: nat)
    requires IsRun(ws, acts) && k < |ws| && n + 1 < |ws[k].hist.handed| && Unknown(ws[k].hist.handed[n])
    ensures var a, b := ws[k].hist.handed[n], ws[k].hist.handed[n + 1];
            && a.stamp + 30_000 <= b.stamp
            && a.at <= b.at && 30_000 - (a.at - a.stamp) <= b.at - a.at
            && (a.at == a.stamp ==> a.at + 30_000 <= b.at)
  {
    AttemptsArePaced(ws, acts, k);
    var a := ws[k].hist.handed[n];
    assert Spaced(a, ws[k].hist.handed[n + 1]);
  }

  /** Delays do not add up: whenever a call is followed by an ambiguous one, the
      call after that comes at least 30 s after the first. */
  lemma EverySecondCallWaits(ws: seq<World>, acts: seq<Action>, k: nat, n: nat)
    requires IsRun(ws, acts) && k < |ws| && n + 2 < |ws[k].hist.handed| && Unknown(ws[k].hist.handed[n + 1])
    ensures ws[k].hist.handed[n].at + 30_000 <= ws[k].hist.handed[n + 2].at
  {
    AttemptsArePaced(ws, acts, k);
    var handed := ws[k].hist.handed;
    assert Spaced(handed[n], handed[n + 1]) && Spaced(handed[n + 1], handed[n + 2]);
  }

  /** The two moments of a host call a window can count by. */
  datatype Moment = Stamped | Made

  function When(s: Submission, m: Moment): int {
    if m == Stamped then s.stamp else s.at
  }

  /** How many ambiguous and unobserved calls have that moment in [from, to]. */
  function UnknownWithin(handed: seq<Submission>, m: Moment, from: int, to: int): nat {
    if handed == [] then 0
    else
      UnknownWithin(handed[..|handed| - 1], m, from, to)
      + (if Counts(handed[|handed| - 1], m, from, to) then 1 else 0)
  }

  predicate Counts(s: Submission, m: Moment, from: int, to: int) {
    Unknown(s) && from <= When(s, m) <= to
  }

  /** How many calls a window can hold beyond one for each whole 30 s. */
  function Slack(m: Moment): nat {
    if m == Stamped then 1 else 2
  }

  /** The stamp of the last such call in the window: every one before it took
      30 s, save the first when calls are counted by when they were made, and
      anything after it comes another 30 s later. */
  lemma {:induction false} LastUnknown(handed: seq<Submission>, m: Moment, from: int, to: int) returns (stamp: int)
    requires AllSpaced(handed) && UnknownWithin(handed, m, from, to) > 0
    ensures stamp <= to
    ensures var count := UnknownWithin(handed, m, from, to);
            count >= Slack(m) ==> from + (count - Slack(m)) * 30_000 <= stamp
    ensures var last := handed[|handed| - 1];
            || (Counts(last, m, from, to) && last.stamp == stamp)
            || (from <= last.at && stamp + 30_000 <= last.stamp)
  {
    var front, last := handed[..|handed| - 1], handed[|handed| - 1];
    if UnknownWithin(front, m, from, to) == 0 {
      stamp := last.stamp;
    } else {
      var before := LastUnknown(front, m, from, to);
      var n := |front| - 1;
      assert Spaced(handed[n], handed[n + 1]);
      stamp := if Counts(last, m, from, to) then last.stamp else before;
    }
  }

  /** A window of length T holds at most T / 30 s + 1 reservations of calls that
      ended ambiguous and unobserved, and at most T / 30 s + 2 such calls. */
  lemma AmbiguousAttemptsAreRare(ws: seq<World>, acts: seq<Action>, k: nat, m: Moment, from: int, to: int)
    requires IsRun(ws, acts) && k < |ws| && from <= to
    ensures UnknownWithin(ws[k].hist.handed, m, from, to) <= (to - from) / 30_000 + (if m == Stamped then 1 else 2)
  {
    AttemptsArePaced(ws, acts, k);
    if UnknownWithin(ws[k].hist.handed, m, from, to) > 0 {
      var stamp := LastUnknown(ws[k].hist.handed, m, from, to);
    }
  }
}
