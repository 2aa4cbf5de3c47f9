/** Who receives which body, under any interleaving of any number of consumers. */
module Acquisition {
  import opened Order
  import opened MailFiles
  import opened Ledgers
  import opened Protocol
  import opened Conservation

  ghost predicate Owns(w: World, pid: Pid, id: Id) {
    id in w.hist.owner && w.hist.owner[id] == pid
  }

  ghost predicate Genuine(w: World, item: Item) {
    item.id in w.hist.pushed && w.hist.pushed[item.id] == Good(item.text)
  }

  ghost predicate Holds(p: Proc, id: Id) {
    exists i :: 0 <= i < |p.got| && p.got[i].id == id
  }

  ghost predicate DistinctIds(items: seq<Item>) {
    forall i, j | 0 <= i < j < |items| :: items[i].id != items[j].id
  }

  /** A call holds only bodies it renamed itself, each once and unchanged. */
  ghost predicate HoldsOwn(w: World, pid: Pid, p: Proc) {
    && (forall i | 0 <= i < |p.got| :: Owns(w, pid, p.got[i].id) && Genuine(w, p.got[i]))
    && DistinctIds(p.got)
    && (p.pc == ReadBody ==> Owns(w, pid, p.cur) && !Holds(p, p.cur))
  }

  ghost predicate AtMostOnce(w: World) {
    && w.procs.Keys <= w.hist.pids
    && (forall id | id in w.hist.owner ::
          id in w.hist.pushed && id !in w.files.pending && w.hist.owner[id] in w.hist.pids)
    && (forall pid | pid in w.procs :: HoldsOwn(w, pid, w.procs[pid]))
    && (forall i | 0 <= i < |w.hist.returned| ::
          && w.hist.returned[i].id in w.hist.owner
          && w.hist.owner[w.hist.returned[i].id] !in w.procs
          && Genuine(w, w.hist.returned[i]))
    && DistinctIds(w.hist.returned)
  }

  lemma HoldsOwnStable(w: World, v: World, pid: Pid, p: Proc)
    requires HoldsOwn(w, pid, p)
    requires forall id | id in w.hist.owner :: id in v.hist.owner && v.hist.owner[id] == w.hist.owner[id]
    requires forall id | id in w.hist.pushed :: id in v.hist.pushed && v.hist.pushed[id] == w.hist.pushed[id]
    ensures HoldsOwn(v, pid, p)
  {
  }

  /** How a step changes what a call holds: it keeps its bodies, adds the one
      it just read, or turns a successful rename into the body to read next. */
  ghost predicate BodyStep(w: World, q: Proc, p: Proc, e: Effect) {
    || (p.got == q.got && p.pc != ReadBody && !e.Claim?)
    || (p.got == q.got && p.pc == ReadBody && e == Claim(p.cur))
    || (&& e == Nothing && p.pc != ReadBody && q.pc == ReadBody
        && q.cur in w.files.claimed && w.files.claimed[q.cur].Good?
        && p.got == q.got + [ToItem(q.cur, w.files.claimed[q.cur])])
  }

  lemma PlanIsBodyStep(w: World, q: Proc, c: Choice)
    requires Shaped(q)
    ensures BodyStep(w, q, Plan(w, q, c).0, Plan(w, q, c).1)
  {
  }

  lemma BodyStepHoldsOwn(w: World, v: World, pid: Pid, q: Proc, p: Proc, e: Effect)
    requires Conserved(w) && AtMostOnce(w) && pid in w.procs && q == w.procs[pid]
    requires e.Claim? ==> e.id in w.files.pending
    requires BodyStep(w, q, p, e) && Framed(w, v, pid, p, e)
    ensures HoldsOwn(v, pid, p)
  {
    if e.Claim? {
      assert e.id !in w.hist.owner;
      assert !Holds(p, e.id);
    } else if p.got != q.got {
      var item := ToItem(q.cur, w.files.claimed[q.cur]);
      assert w.files.Lookup(q.cur) == Some(w.files.claimed[q.cur]);
      assert Genuine(w, item);
      assert !Holds(q, q.cur);
    }
  }

  lemma LeaveReturnsOnce(w: World, pid: Pid)
    requires AtMostOnce(w) && pid in w.procs
    ensures AtMostOnce(Apply(w, pid, w.procs[pid], Leave))
  {
    var v := Apply(w, pid, w.procs[pid], Leave);
    var p := w.procs[pid];
    forall q | q in v.procs
      ensures HoldsOwn(v, q, v.procs[q])
    {
      HoldsOwnStable(w, v, q, w.procs[q]);
    }
    forall i, j | 0 <= i < j < |v.hist.returned|
      ensures v.hist.returned[i].id != v.hist.returned[j].id
    {
      if i < |w.hist.returned| <= j {
        assert v.hist.returned[j] == p.got[j - |w.hist.returned|];
        assert Owns(w, pid, v.hist.returned[j].id);
      }
    }
  }

  /** What a step of a call other than its return leaves alone. */
  ghost predicate Framed(w: World, v: World, pid: Pid, p: Proc, e: Effect) {
    && v.procs == w.procs[pid := p]
    && v.hist.pushed == w.hist.pushed
    && v.hist.pids == w.hist.pids
    && v.hist.returned == w.hist.returned
    && v.hist.owner == (if e.Claim? then w.hist.owner[e.id := pid] else w.hist.owner)
    && (forall id | id in v.files.pending :: id in w.files.pending && e != Claim(id))
  }

  lemma EffectIsFramed(w: World, pid: Pid, p: Proc, e: Effect)
    requires Possible(w, pid, e) && !e.Leave?
    ensures Framed(w, Apply(w, pid, p, e), pid, p, e)
  {
  }

  lemma FramedAtMostOnce(w: World, v: World, pid: Pid, p: Proc, e: Effect)
    requires Conserved(w) && AtMostOnce(w) && pid in w.procs
    requires e.Claim? ==> e.id in w.files.pending
    requires Framed(w, v, pid, p, e) && HoldsOwn(v, pid, p)
    ensures AtMostOnce(v)
  {
    if e.Claim? {
      assert w.files.Lookup(e.id).Some?;
      assert e.id !in w.hist.owner;
    }
    forall q | q in v.procs
      ensures HoldsOwn(v, q, v.procs[q])
    {
      if q != pid { HoldsOwnStable(w, v, q, w.procs[q]); }
    }
  }

  lemma CallAtMostOnce(w: World, pid: Pid, p: Proc, e: Effect)
    requires Conserved(w) && AtMostOnce(w) && pid in w.procs
    requires Possible(w, pid, e) && BodyStep(w, w.procs[pid], p, e)
    requires e.Leave? ==> p == w.procs[pid]
    ensures AtMostOnce(Apply(w, pid, p, e))
  {
    if e.Leave? {
      LeaveReturnsOnce(w, pid);
    } else {
      var v := Apply(w, pid, p, e);
      EffectIsFramed(w, pid, p, e);
      BodyStepHoldsOwn(w, v, pid, w.procs[pid], p, e);
      FramedAtMostOnce(w, v, pid, p, e);
    }
  }

  lemma StepAtMostOnce(w: World, a: Action)
    requires Conserved(w) && AtMostOnce(w) && Enabled(w, a)
    ensures AtMostOnce(Next(w, a))
  {
    if a.Advance? {
      var (p, e) := Plan(w, w.procs[a.pid], a.choice);
      PlanIsBodyStep(w, w.procs[a.pid], a.choice);
      CallAtMostOnce(w, a.pid, p, e);
    } else {
      EnvironmentAtMostOnce(w, a);
    }
  }

  lemma EnvironmentAtMostOnce(w: World, a: Action)
    requires Conserved(w) && AtMostOnce(w) && Enabled(w, a) && !a.Advance?
    ensures AtMostOnce(Next(w, a))
  {
    var v := Next(w, a);
    forall q | q in v.procs
      ensures HoldsOwn(v, q, v.procs[q])
    {
      if !(a.Start? && q == a.pid) { HoldsOwnStable(w, v, q, w.procs[q]); }
    }
  }

  /** Over a whole run no id is returned twice, by one call or by several, and
      every returned body is the published one; no id is acknowledged twice. */
  lemma {:induction false} EachBodyReturnedAtMostOnce(ws: seq<World>, acts: seq<Action>, k: nat)
    requires IsRun(ws, acts) && k < |ws|
    ensures Conserved(ws[k]) && AtMostOnce(ws[k])
    ensures DistinctIds(ws[k].hist.returned) && Distinct(ws[k].hist.acked)
  {
    if k > 0 {
      EachBodyReturnedAtMostOnce(ws, acts, k - 1);
      StepConserves(ws[k - 1], acts[k - 1]);
      StepAtMostOnce(ws[k - 1], acts[k - 1]);
    }
  }

  /** Every id a call renamed is among the bodies it holds, unless another
      process finished it before the body was read, or reading it failed. */
  ghost predicate Accounted(w: World) {
    forall pid, id | pid in w.procs && Owns(w, pid, id) :: AccountedFor(w, w.procs[pid], id)
  }

  ghost predicate AccountedFor(w: World, p: Proc, id: Id) {
    || Holds(p, id)
    || id in w.files.done
    || (id == p.cur && (p.pc == ReadBody || (p.pc == Return && p.outcome == OtherError)))
  }

  /** How a step treats the claimed id whose body is still to be read. */
  ghost predicate CursorStep(w: World, q: Proc, p: Proc, e: Effect) {
    && (q.pc == ReadBody && p.got == q.got ==>
          (p.cur == q.cur && p.pc == Return && p.outcome == OtherError) || q.cur !in w.files.claimed)
    && (q.pc == Return ==> e.Leave?)
    && (e.Claim? ==> p.pc == ReadBody && p.cur == e.id)
  }

  lemma PlanIsCursorStep(w: World, q: Proc, c: Choice)
    requires Shaped(q)
    ensures CursorStep(w, q, Plan(w, q, c).0, Plan(w, q, c).1)
  {
  }

  lemma HoldsGrows(q: Proc, p: Proc, id: Id)
    requires Holds(q, id) && (p.got == q.got || exists item :: p.got == q.got + [item])
    ensures Holds(p, id)
  {
    var i :| 0 <= i < |q.got| && q.got[i].id == id;
    assert p.got[i].id == id;
  }

  lemma OwnStepAccounted(w: World, v: World, pid: Pid, p: Proc, e: Effect, id: Id)
    requires Conserved(w) && AtMostOnce(w) && Accounted(w) && pid in w.procs
    requires e.Claim? ==> e.id in w.files.pending
    requires !e.Leave? && Framed(w, v, pid, p, e)
    requires BodyStep(w, w.procs[pid], p, e) && CursorStep(w, w.procs[pid], p, e)
    requires forall x | x in w.files.done :: x in v.files.done
    requires Owns(v, pid, id)
    ensures AccountedFor(v, p, id)
  {
    var q := w.procs[pid];
    if !(e.Claim? && e.id == id) {
      assert Owns(w, pid, id) && AccountedFor(w, q, id);
      if Holds(q, id) {
        HoldsGrows(q, p, id);
      } else if id == q.cur && q.pc == ReadBody {
        if p.got != q.got {
          assert p.got[|q.got|].id == id;
        } else {
          assert w.files.Lookup(id).Some? && id !in w.files.pending;
        }
      }
    }
  }

  lemma CallAccounted(w: World, pid: Pid, p: Proc, e: Effect)
    requires Conserved(w) && AtMostOnce(w) && Accounted(w) && pid in w.procs
    requires Possible(w, pid, e)
    requires BodyStep(w, w.procs[pid], p, e) && CursorStep(w, w.procs[pid], p, e)
    ensures Accounted(Apply(w, pid, p, e))
  {
    var v := Apply(w, pid, p, e);
    if e.Finish? { FinishFileMoves(w.files, e.id); }
    assert forall x | x in w.files.done :: x in v.files.done;
    if !e.Leave? { EffectIsFramed(w, pid, p, e); }
    forall q, id | q in v.procs && Owns(v, q, id)
      ensures AccountedFor(v, v.procs[q], id)
    {
      if q == pid {
        OwnStepAccounted(w, v, pid, p, e, id);
      } else {
        assert Owns(w, q, id) && AccountedFor(w, w.procs[q], id);
      }
    }
  }

  lemma StepAccounted(w: World, a: Action)
    requires Conserved(w) && AtMostOnce(w) && Accounted(w) && Enabled(w, a)
    ensures Accounted(Next(w, a))
  {
    var v := Next(w, a);
    if a.Advance? {
      var (p, e) := Plan(w, w.procs[a.pid], a.choice);
      PlanIsBodyStep(w, w.procs[a.pid], a.choice);
      PlanIsCursorStep(w, w.procs[a.pid], a.choice);
      CallAccounted(w, a.pid, p, e);
    } else {
      forall q, id | q in v.procs && Owns(v, q, id)
        ensures AccountedFor(v, v.procs[q], id)
      {
        if !(a.Start? && q == a.pid) {
          assert Owns(w, q, id) && AccountedFor(w, w.procs[q], id);
        }
      }
    }
  }

  /** How many bodies a call may hold, and that a full batch is never returned
      together with an error. */
  ghost predicate Bounded(p: Proc) {
    && (p.call.Receive? ==>
          && |p.got| <= Limit(p.call.limit)
          && (p.pc == ReadBody ==> |p.got| < Limit(p.call.limit))
          && (p.pc !in {Rename, ReadBody, Return} ==> p.got == [])
          && (p.pc == Return && |p.got| == Limit(p.call.limit) ==> p.outcome == Ok))
    && (p.call.Take? && p.pc == Rename ==> p.todo == [p.call.id])
    && (p.call.Take? || p.call.TakeNext? ==>
          && (p.pc != Return ==> p.got == [])
          && (p.pc == Return ==> |p.got| == if p.outcome == Ok then 1 else 0))
    && (p.call.Notify? || p.call.Ack? ==> p.got == [])
  }

  lemma RenameBounded(w: World, q: Proc, c: Choice)
    requires Shaped(q) && q.pc == Rename && Bounded(q)
    ensures Bounded(PlanRename(w, q, c).0)
  {
  }

  lemma BodyBounded(w: World, q: Proc, c: Choice)
    requires Shaped(q) && q.pc == ReadBody && Bounded(q)
    ensures Bounded(PlanBody(w, q, c))
  {
  }

  lemma PlanBounded(w: World, q: Proc, c: Choice)
    requires Shaped(q) && Bounded(q) && q.pc != Return
    ensures Bounded(Plan(w, q, c).0)
  {
    if q.pc == Rename { RenameBounded(w, q, c); }
    else if q.pc == ReadBody { BodyBounded(w, q, c); }
    else { assert Plan(w, q, c).0.got == q.got; }
  }

  lemma StepBounded(w: World, a: Action)
    requires Enabled(w, a) && forall q | q in w.procs :: Bounded(w.procs[q])
    ensures forall q | q in Next(w, a).procs :: Bounded(Next(w, a).procs[q])
  {
    forall q | q in Next(w, a).procs
      ensures Bounded(Next(w, a).procs[q])
    {
      CallAfter(w, a, q);
      if a.Advance? && q == a.pid { PlanBounded(w, w.procs[q], a.choice); }
    }
  }

  lemma {:induction false} CallsAreAccounted(ws: seq<World>, acts: seq<Action>, k: nat)
    requires IsRun(ws, acts) && k < |ws|
    ensures Accounted(ws[k])
    ensures forall q | q in ws[k].procs :: Bounded(ws[k].procs[q])
  {
    if k > 0 {
      CallsAreAccounted(ws, acts, k - 1);
      EachBodyReturnedAtMostOnce(ws, acts, k - 1);
      StepAccounted(ws[k - 1], acts[k - 1]);
      StepBounded(ws[k - 1], acts[k - 1]);
    }
  }

  /** A call about to return holds exactly the ids it moved to claimed/, also
      when it was cancelled in mid-batch. The only exceptions are ids another
      process finished meanwhile and one whose file could not be read. */
  lemma ClaimedBodiesAreReturned(ws: seq<World>, acts: seq<Action>, k: nat, pid: Pid, id: Id)
    requires IsRun(ws, acts) && k < |ws| && pid in ws[k].procs && ws[k].procs[pid].pc == Return
    ensures Holds(ws[k].procs[pid], id) ==> Owns(ws[k], pid, id)
    ensures Owns(ws[k], pid, id) ==>
              || Holds(ws[k].procs[pid], id)
              || id in ws[k].files.done
              || (id == ws[k].procs[pid].cur && ws[k].procs[pid].outcome == OtherError)
  {
    EachBodyReturnedAtMostOnce(ws, acts, k);
    CallsAreAccounted(ws, acts, k);
    assert HoldsOwn(ws[k], pid, ws[k].procs[pid]);
    if Owns(ws[k], pid, id) {
      assert AccountedFor(ws[k], ws[k].procs[pid], id);
    }
  }

  /** A receive limited to one item returns a body or an error, never both;
      take and take --next return a body exactly when they succeed. */
  lemma BodyOrError(ws: seq<World>, acts: seq<Action>, k: nat, pid: Pid)
    requires IsRun(ws, acts) && k < |ws| && pid in ws[k].procs && ws[k].procs[pid].pc == Return
    ensures var p := ws[k].procs[pid];
            && (p.call.Receive? && Limit(p.call.limit) == 1 ==> p.got == [] || p.outcome == Ok)
            && (p.call.Take? || p.call.TakeNext? ==> (p.outcome == Ok <==> |p.got| == 1))
  {
    CallsAreAccounted(ws, acts, k);
  }
}
