/** Ack looks in claimed/ and then in pending/, against the direction items
    move, so it can miss an item that is there all along. This says when. */
module Acknowledging {
  import opened MailFiles
  import opened Ledgers
  import opened Protocol
  import opened Runs
  import opened Conservation
  import opened Wakes

  /** Step k of the run is call pid's operation at the given point of an Ack,
      and it does not fail. */
  ghost predicate AcksAt(ws: seq<World>, acts: seq<Action>, k: nat, pid: Pid, id: Id, pc: Pc)
    requires IsRun(ws, acts)
  {
    && k < |acts|
    && acts[k].Advance? && acts[k].pid == pid && !acts[k].choice.fail
    && ws[k].procs[pid].call == Ack(id) && ws[k].procs[pid].pc == pc
  }

  lemma AckStep(w: World, pid: Pid, c: Choice, id: Id)
    requires Enabled(w, Advance(pid, c)) && !c.fail && w.procs[pid].call == Ack(id)
    ensures var v := Next(w, Advance(pid, c));
            && (w.procs[pid].pc == AckClaimed ==>
                  pid in v.procs && (v.procs[pid].pc == AckPending <==> id !in w.files.claimed))
            && (w.procs[pid].pc == AckPending ==>
                  pid in v.procs && v.procs[pid].pc == Return
                  && v.procs[pid].outcome == (if id in w.files.pending then Ok else NotFound))
  {
  }

  /** An acknowledgement of a published item is refused exactly when the item
      was already done, or was claimed or finished by another process between
      the look into claimed/ and the look into pending/. */
  lemma AckMissesExactly(ws: seq<World>, acts: seq<Action>, i: nat, k: nat, pid: Pid, id: Id)
    requires IsRun(ws, acts) && i < k
    requires AcksAt(ws, acts, i, pid, id, AckClaimed) && AcksAt(ws, acts, k, pid, id, AckPending)
    requires id in ws[i].hist.pushed && id !in ws[i].files.claimed
    ensures pid in ws[k + 1].procs && ws[k + 1].procs[pid].pc == Return
    ensures ws[k + 1].procs[pid].outcome == NotFound <==>
              || ws[i].files.StageOf(id) == Done
              || ws[i].files.StageOf(id) != ws[k].files.StageOf(id)
    ensures ws[k + 1].procs[pid].outcome == Ok <==> ws[k].files.StageOf(id) == Pending
  {
    AckStep(ws[k], pid, acts[k].choice, id);
    BodiesAreConserved(ws, acts, i, k);
    InPending(ws[i], id);
    assert ws[i].files.StageOf(id).Rank() <= ws[k].files.StageOf(id).Rank();
    assert ws[k].files.Lookup(id) == ws[i].files.Lookup(id);
  }

  /** Call 0 is an Ack between its two looks, and its item is pending. */
  ghost predicate BetweenLooks(w: World, id: Id) {
    && w.procs.Keys == {0} && w.hist.pids == {0}
    && w.procs[0].call == Ack(id) && w.procs[0].pc == AckPending
    && id in w.files.pending
  }

  lemma ReachBetweenLooks(w: World, id: Id, file: File, go: Choice) returns (ws: seq<World>, acts: seq<Action>)
    requires Init(w) && !go.fail
    ensures IsRun(ws, acts) && ws[0] == w && BetweenLooks(ws[|acts|], id)
  {
    ws, acts := [w], [];
    ws, acts := Extend(ws, acts, Push(id, file));
    ws, acts := Extend(ws, acts, Start(0, Ack(id)));
    FirstLook(ws[|acts|], id, go);
    ws, acts := Extend(ws, acts, Advance(0, go));
  }

  lemma FirstLook(w: World, id: Id, go: Choice)
    requires w.procs == map[0 := Begun(Ack(id))] && w.hist.pids == {0} && !go.fail
    requires id in w.files.pending && id !in w.files.claimed
    ensures Enabled(w, Advance(0, go)) && BetweenLooks(Next(w, Advance(0, go)), id)
  {
    AckStep(w, 0, go, id);
  }

  lemma TakeStep(w: World, pid: Pid, c: Choice, id: Id)
    requires pid in w.procs && w.procs[pid] == Begun(Take(id)) && id in w.files.pending && !c.fail
    ensures Enabled(w, Advance(pid, c))
    ensures var v := Next(w, Advance(pid, c));
            v.files == w.files.Claim(id) && forall q | q in w.procs && q != pid ::
              q in v.procs && v.procs[q] == w.procs[q]
  {
  }

  /** It does happen: an item pushed, and claimed by a take between the two
      looks, is refused while it sits in claimed/. */
  lemma AckCanMiss(w: World, id: Id, file: File, nonce: nat) returns (ws: seq<World>, acts: seq<Action>)
    requires Init(w)
    ensures IsRun(ws, acts) && ws[0] == w
    ensures var end := ws[|acts|];
            && 0 in end.procs && end.procs[0].pc == Return && end.procs[0].outcome == NotFound
            && id in end.files.claimed
  {
    var go := Choice(false, nonce, AnsQueued);
    ws, acts := ReachBetweenLooks(w, id, file, go);
    ws, acts := Extend(ws, acts, Start(1, Take(id)));
    TakeStep(ws[|acts|], 1, go, id);
    ws, acts := Extend(ws, acts, Advance(1, go));
    ws, acts := MissAck(ws, acts, id, go);
  }

  lemma MissAck(ws: seq<World>, acts: seq<Action>, id: Id, go: Choice) returns (more: seq<World>, steps: seq<Action>)
    requires IsRun(ws, acts) && !go.fail
    requires var w := ws[|acts|];
             && 0 in w.procs && w.procs[0].call == Ack(id) && w.procs[0].pc == AckPending
             && id in w.files.claimed && id !in w.files.pending
    ensures IsRun(more, steps) && more[0] == ws[0]
    ensures var end := more[|steps|];
            && 0 in end.procs && end.procs[0].pc == Return && end.procs[0].outcome == NotFound
            && id in end.files.claimed
  {
    more, steps := Extend(ws, acts, Advance(0, go));
    AckStep(ws[|acts|], 0, go, id);
  }
}
