/** Bodies under any interleaving: none is lost, rewritten or moved back, each
    is handed out by at most one call, and each is acknowledged at most once. */
module Conservation {
  import opened Order
  import opened MailFiles
  import opened Protocol

  /** Each published id has exactly one file, with the published content, and
      the acknowledged ids are exactly those in done/. */
  ghost predicate Conserved(w: World) {
    && w.files.Disjoint()
    && (forall id :: w.files.Lookup(id) == if id in w.hist.pushed then Some(w.hist.pushed[id]) else None)
    && Distinct(w.hist.acked)
    && (forall id :: id in w.hist.acked <==> id in w.files.done)
  }

  lemma FinishFileMoves(fs: Files, id: Id)
    requires fs.Disjoint() && (id in fs.pending || id in fs.claimed)
    ensures FinishFile(fs, id).Disjoint()
    ensures forall x :: FinishFile(fs, id).Lookup(x) == fs.Lookup(x)
    ensures Forward(fs, FinishFile(fs, id))
    ensures FinishFile(fs, id).done.Keys == fs.done.Keys + {id}
    ensures id !in fs.done
  {
    if id in fs.claimed { FinishClaimedMoves(fs, id); } else { FinishPendingMoves(fs, id); }
  }

  lemma EffectConserves(w: World, pid: Pid, p: Proc, e: Effect)
    requires Conserved(w) && Possible(w, pid, e)
    ensures Conserved(Apply(w, pid, p, e))
    ensures Forward(w.files, Apply(w, pid, p, e).files)
  {
    match e
    case Claim(id) => ClaimMoves(w.files, id);
    case Finish(id) =>
      FinishFileMoves(w.files, id);
      var acked := w.hist.acked + [id];
      assert id !in w.hist.acked;
      assert forall x :: x in acked <==> x in w.hist.acked || x == id;
    case _ =>
  }

  lemma StepConserves(w: World, a: Action)
    requires Conserved(w) && Enabled(w, a)
    ensures Conserved(Next(w, a))
    ensures Forward(w.files, Next(w, a).files)
  {
    match a
    case Push(id, file) =>
      assert w.files.Lookup(id) == None;
      PublishAdds(w.files, id, file);
    case Advance(pid, c) =>
      var (p, e) := Plan(w, w.procs[pid], c);
      EffectConserves(w, pid, p, e);
    case _ =>
  }

  /** Conservation holds throughout every run, and between any two moments
      each item keeps its content and only moves towards done/. */
  lemma {:induction false} BodiesAreConserved(ws: seq<World>, acts: seq<Action>, i: nat, j: nat)
    requires IsRun(ws, acts) && i <= j < |ws|
    ensures Conserved(ws[i]) && Conserved(ws[j])
    ensures Forward(ws[i].files, ws[j].files)
    decreases j
  {
    if j > 0 {
      BodiesAreConserved(ws, acts, if i < j then i else j - 1, j - 1);
      StepConserves(ws[j - 1], acts[j - 1]);
      if i < j { ForwardTransitive(ws[i].files, ws[j - 1].files, ws[j].files); }
    }
  }
}
