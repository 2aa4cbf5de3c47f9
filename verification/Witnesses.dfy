/** Runs that show where a promise ends: two host calls close together, and what
    a single failing read can do. */
module Witnesses {
  import opened Order
  import opened MailFiles
  import opened Ledgers
  import opened Protocol
  import opened Runs
  import opened Agreement
  import opened Attempts
  import M = Mailbox

  function Go(nonce: nat, answer: Answer): Choice { Choice(false, nonce, answer) }

  /** Nothing is running, and one readable item is pending. */
  ghost predicate Resting(w: World, item: Id) {
    w.procs == map[] && w.lock == None && HoldsOnly(w.files, item)
  }

  predicate HoldsOnly(fs: Files, item: Id) {
    fs.pending.Keys == {item} && fs.claimed == map[] && fs.done == map[] && fs.Readable(item)
  }

  lemma ListedWhenReadable(fs: Files, item: Id)
    requires fs.Readable(item)
    ensures item in M.Listing(fs)
  {
    assert item in M.ReadableIds(fs);
  }

  lemma PushOnce(w: World, item: Id, text: string) returns (ws: seq<World>, acts: seq<Action>)
    requires Init(w)
    ensures IsRun(ws, acts) && ws[0] == w
    ensures var v := ws[|acts|];
            && Resting(v, item) && v.clock == w.clock && v.address == w.address && v.ledger == NO_LEDGER
            && v.hist == NO_HISTORY.(pushed := map[item := Good(text)])
  {
    ws, acts := Extend([w], [], Push(item, Good(text)));
  }

  /** A notify that decides to submit, stopped before it writes its
      reservation. */
  ghost predicate BeforeReservation(w: World, v: World, pid: Pid, item: Id, nonce: nat) {
    && pid in v.procs && v.procs.Keys == {pid}
    && At(v, pid, v.procs[pid]) && v.procs[pid].pc == WriteSubmitting && v.procs[pid].call == Notify(item)
    && v.procs[pid].st == Begin(w.ledger, v.procs[pid].compatible, v.procs[pid].ids, w.clock, nonce)
    && v.procs[pid].compatible == (w.address == Some(2))
    && v.files == w.files && v.clock == w.clock && v.address == w.address
    && v.hist == w.hist.(pids := w.hist.pids + {pid}, nonces := w.hist.nonces + {nonce})
    && (v.lock == None || v.lock == Some(pid))
  }

  lemma DecideOnce(ws: seq<World>, acts: seq<Action>, pid: Pid, item: Id, nonce: nat)
    returns (more: seq<World>, steps: seq<Action>)
    requires IsRun(ws, acts) && Resting(ws[|acts|], item)
    requires var w := ws[|acts|];
             && pid !in w.hist.pids && nonce !in w.hist.nonces
             && Decide(w.ledger, item, w.address == Some(2), w.clock) == Submit
    ensures IsRun(more, steps) && more[0] == ws[0] && BeforeReservation(ws[|acts|], more[|steps|], pid, item, nonce)
  {
    var go := Go(nonce, AnsQueued);
    more, steps := Extend(ws, acts, Start(pid, Notify(item)));
    var v, path := NotifyToDecision(more[|steps|], pid, item, go);
    PathKeepsOthers(more[|steps|], v, path, pid, go);
    assert v.procs.Keys == (v.procs - {pid}).Keys + {pid};
    more, steps := ExtendBy(more, steps, path, v, pid, go);
  }

  lemma NotifyToDecision(w: World, pid: Pid, item: Id, go: Choice) returns (v: World, ws: seq<World>)
    requires At(w, pid, Begun(Notify(item))) && w.lock == None && !go.fail && go.nonce !in w.hist.nonces
    requires w.files.Readable(item) && Decide(w.ledger, item, w.address == Some(2), w.clock) == Submit
    ensures Leads(w, v, ws, pid, go) && pid in v.procs && At(v, pid, v.procs[pid])
    ensures var q := v.procs[pid];
            && q.pc == WriteSubmitting && q.call == Notify(item) && q.compatible == (w.address == Some(2))
            && q.st == Begin(w.ledger, q.compatible, q.ids, w.clock, go.nonce)
    ensures v.files == w.files && v.hist == w.hist.(nonces := w.hist.nonces + {go.nonce})
  {
    ListedWhenReadable(w.files, item);
    var u, us := NotifyToChoice(w, pid, item, go);
    var q;
    v, ws, q := DecideAlone(u, pid, u.procs[pid], go);
    Join(w, u, v, us, ws, pid, go);
    ws := us + ws[1..];
  }

  // ---- Two host calls close together ----

  /** A call that has written its reservation and not called the host yet. */
  ghost predicate BeforeCall(w: World, pid: Pid, stamp: int) {
    && w.procs.Keys == {pid} && At(w, pid, w.procs[pid]) && w.procs[pid].pc == CallHost
    && w.procs[pid].st == w.ledger && w.ledger.phase == Phase.Submitting && w.ledger.generatedAt == stamp
    && (w.lock == None || w.lock == Some(pid))
  }

  lemma ReserveOnce(ws: seq<World>, acts: seq<Action>, pid: Pid, item: Id, nonce: nat)
    returns (more: seq<World>, steps: seq<Action>)
    requires IsRun(ws, acts) && Resting(ws[|acts|], item)
    requires var w := ws[|acts|];
             && pid !in w.hist.pids && nonce !in w.hist.nonces
             && Decide(w.ledger, item, w.address == Some(2), w.clock) == Submit
    ensures IsRun(more, steps) && more[0] == ws[0]
    ensures var w, v := ws[|acts|], more[|steps|];
            && BeforeCall(v, pid, w.clock) && v.files == w.files && v.clock == w.clock && v.address == w.address
            && v.hist.handed == w.hist.handed && v.hist.pids == w.hist.pids + {pid}
            && v.hist.nonces == w.hist.nonces + {nonce}
  {
    more, steps := DecideOnce(ws, acts, pid, item, nonce);
    more, steps := Extend(more, steps, Advance(pid, Go(nonce, AnsQueued)));
  }

  lemma HostFails(ws: seq<World>, acts: seq<Action>, pid: Pid, item: Id, stamp: int)
    returns (more: seq<World>, steps: seq<Action>)
    requires IsRun(ws, acts) && BeforeCall(ws[|acts|], pid, stamp) && HoldsOnly(ws[|acts|].files, item)
    ensures IsRun(more, steps) && more[0] == ws[0]
    ensures var w, v := ws[|acts|], more[|steps|];
            && Resting(v, item) && v.ledger == w.ledger && v.files == w.files && v.clock == w.clock
                && v.address == w.address
            && v.hist.pids == w.hist.pids && v.hist.nonces == w.hist.nonces
            && |v.hist.handed| == |w.hist.handed| + 1 && v.hist.handed[..|w.hist.handed|] == w.hist.handed
            && UnknownAt(v.hist.handed[|w.hist.handed|], stamp, w.clock)
  {
    InvalidReceipt(ws[|acts|], pid, stamp);
    more, steps := Extend(ws, acts, Advance(pid, Go(0, AnsInvalid)));
    LeaveOnce(more[|steps|], pid);
    ReturnStep(more[|steps|], pid, Go(0, AnsInvalid));
    more, steps := Extend(more, steps, Advance(pid, Go(0, AnsInvalid)));
  }

  lemma InvalidReceipt(w: World, pid: Pid, stamp: int)
    requires BeforeCall(w, pid, stamp)
    ensures Enabled(w, Advance(pid, Go(0, AnsInvalid)))
    ensures var v := Next(w, Advance(pid, Go(0, AnsInvalid)));
            && v.ledger == w.ledger && v.files == w.files && v.clock == w.clock && v.address == w.address
            && v.lock == w.lock && v.procs.Keys == {pid} && v.procs[pid].pc == Return
                && v.procs[pid].outcome == OtherError
            && v.hist.pids == w.hist.pids && v.hist.nonces == w.hist.nonces
            && |v.hist.handed| == |w.hist.handed| + 1 && v.hist.handed[..|w.hist.handed|] == w.hist.handed
            && UnknownAt(v.hist.handed[|w.hist.handed|], stamp, w.clock)
  {
  }

  /** The only running call returns. */
  lemma LeaveOnce(w: World, pid: Pid)
    requires w.procs.Keys == {pid} && (w.lock == None || w.lock == Some(pid))
    ensures var v, p := Apply(w, pid, w.procs[pid], Leave), w.procs[pid];
            && v.procs == map[] && v.lock == None
            && v.ledger == w.ledger && v.files == w.files && v.clock == w.clock && v.address == w.address
            && v.hist.pids == w.hist.pids && v.hist.nonces == w.hist.nonces && v.hist.handed == w.hist.handed
            && v.hist.pushed == w.hist.pushed
            && v.hist.notified == w.hist.notified + (if p.call.Notify? && p.outcome == Ok then {p.call.item} else {})
  {
    assert (w.procs - {pid}).Keys == {};
  }

  predicate UnknownAt(s: Submission, stamp: int, at: int) {
    Unknown(s) && s.stamp == stamp && s.at == at
  }

  /** The bound on ambiguous calls is exact: for every delay of up to 30 s there
      is a run whose first call is that late, and whose second call comes just
      30 s less the delay after it. With a delay of 29999 ms the two are one
      millisecond apart. */
  lemma CallsCanBeClose(w: World, item: Id, text: string, delay: nat) returns (ws: seq<World>, acts: seq<Action>)
    requires Init(w) && delay <= 30_000
    ensures IsRun(ws, acts) && ws[0] == w
    ensures var handed := ws[|acts|].hist.handed;
            && |handed| == 2
            && UnknownAt(handed[0], w.clock, w.clock + delay)
            && handed[1].at - handed[0].at == 30_000 - delay
  {
    ws, acts := PushOnce(w, item, text);
    ws, acts := ReserveOnce(ws, acts, 0, item, 0);
    ws, acts := Extend(ws, acts, Tick(w.clock + delay));
    ws, acts := HostFails(ws, acts, 0, item, w.clock);
    ws, acts := Extend(ws, acts, Tick(w.clock + 30_000));
    ws, acts := ReserveOnce(ws, acts, 1, item, 1);
    ws, acts := HostFails(ws, acts, 1, item, w.clock + 30_000);
  }

  // ---- A failing read ----

  /** A listing that reaches the only pending item and fails to read it. */
  lemma ReadFailsOnce(ws: seq<World>, acts: seq<Action>, pid: Pid, item: Id, go: Choice)
    returns (more: seq<World>, steps: seq<Action>)
    requires IsRun(ws, acts) && !go.fail
    requires var w := ws[|acts|];
             && HoldsOnly(w.files, item)
             && pid in w.procs && At(w, pid, w.procs[pid]) && w.procs[pid].pc == Scan && !w.procs[pid].call.TakeNext?
    ensures IsRun(more, steps) && more[0] == ws[0]
    ensures var w, v := ws[|acts|], more[|steps|];
            v == w.Set(pid, AfterListing(
                              w.procs[pid].(ids := [], todo := [], base := w.hist.pushed.Keys, missed := {item},
                                pc := ReadItem),
                              w.clock))
  {
    var w := ws[|acts|];
    var p := w.procs[pid];
    OnlyName(w.files.pending.Keys, item);
    var q := AfterScan(p, [item], w.hist.pushed.Keys);
    more, steps := Extend(ws, acts, Advance(pid, go));
    assert more[|steps|] == w.Set(pid, q);
    more, steps := Extend(more, steps, Advance(pid, go.(fail := true)));
    var r := q.(todo := [], missed := {item});
    SetTwice(w, pid, q, r);
    assert q.missed + {item} == {item} && q.todo[1..] == [];
    assert more[|steps|] == w.Set(pid, r);
    more, steps := Extend(more, steps, Advance(pid, go));
    SetTwice(w, pid, r, AfterListing(r, w.clock));
  }

  lemma OnlyName(names: set<Id>, item: Id)
    requires names == {item}
    ensures Sorted(names) == [item]
  {
    assert Sorted(names)[0] in names;
  }

  /** A notify reports a readable pending item as not found. */
  lemma NotifyCanMiss(w: World, item: Id, text: string) returns (ws: seq<World>, acts: seq<Action>)
    requires Init(w)
    ensures IsRun(ws, acts) && ws[0] == w
    ensures var v := ws[|acts|];
            && v.files.Readable(item)
            && 0 in v.procs && v.procs[0].call == Notify(item)
            && v.procs[0].pc == Return && v.procs[0].outcome == NotFound
  {
    var go := Go(0, AnsQueued);
    ws, acts := PushOnce(w, item, text);
    ws, acts := Extend(ws, acts, Start(0, Notify(item)));
    var v, path := OpenCall(ws[|acts|], 0, Notify(item), go);
    ws, acts := ExtendBy(ws, acts, path, v, 0, go);
    ws, acts := ReadFailsOnce(ws, acts, 0, item, go);
    ProbesFail(ws[|acts|], 0, item, go);
    ws, acts := Extend(ws, acts, Advance(0, go));
    ws, acts := Extend(ws, acts, Advance(0, go));
  }

  lemma ProbesFail(w: World, pid: Pid, item: Id, go: Choice)
    requires pid in w.procs && w.procs[pid].pc == ProbeClaimed && w.procs[pid].call == Notify(item) && !go.fail
    requires item !in w.files.claimed && item !in w.files.done
    ensures Enabled(w, Advance(pid, go))
    ensures var u := Next(w, Advance(pid, go));
            && Enabled(u, Advance(pid, go))
            && var v := Next(u, Advance(pid, go));
               && v.files == w.files
               && pid in v.procs && v.procs[pid].call == Notify(item)
               && v.procs[pid].pc == Return && v.procs[pid].outcome == NotFound
  {
  }

  /** A hint that was queued, its notify returned. */
  lemma NotifiedOnce(ws: seq<World>, acts: seq<Action>, item: Id) returns (more: seq<World>, steps: seq<Action>)
    requires IsRun(ws, acts) && Resting(ws[|acts|], item)
    requires var w := ws[|acts|];
             w.address == Some(2) && w.ledger == NO_LEDGER && 0 !in w.hist.pids && 0 !in w.hist.nonces
    ensures IsRun(more, steps) && more[0] == ws[0]
    ensures var w, v := ws[|acts|], more[|steps|];
            && v.procs == map[] && v.lock == None && v.files == w.files
            && v.hist.pids == w.hist.pids + {0} && item in v.hist.notified
            && v.ledger.phase == Queued && v.ledger.protocol == 2 && v.ledger.id == Some(Random(0))
  {
    var go := Go(0, AnsQueued);
    more, steps := DecideOnce(ws, acts, 0, item, 0);
    var v, path := HintQueued(ws[|acts|], more[|steps|], item, go);
    more, steps := ExtendBy(more, steps, path, v, 0, go);
    LeaveOnce(v, 0);
    ReturnStep(v, 0, go);
    more, steps := Extend(more, steps, Advance(0, go));
  }

  lemma HintQueued(w: World, u: World, item: Id, go: Choice) returns (v: World, path: seq<World>)
    requires BeforeReservation(w, u, 0, item, 0) && w.address == Some(2) && w.ledger == NO_LEDGER
    requires go == Go(0, AnsQueued)
    ensures Leads(u, v, path, 0, go)
    ensures v.procs.Keys == {0} && v.procs[0].pc == Return && v.procs[0].call == Notify(item)
              && v.procs[0].outcome == Ok
    ensures (v.lock == None || v.lock == Some(0)) && v.files == w.files && v.hist.pids == u.hist.pids
    ensures v.ledger.phase == Queued && v.ledger.protocol == 2 && v.ledger.id == Some(Random(0))
  {
    v, path := SubmitAlone(u, 0, u.procs[0], go);
    PathKeepsOthers(u, v, path, 0, go);
    assert v.procs.Keys == (v.procs - {0}).Keys + {0};
  }

  /** A drain closes the flight over a readable item whose notify succeeded. */
  lemma WakeCanBeLost(w: World, item: Id, text: string, limit: int) returns (ws: seq<World>, acts: seq<Action>)
    requires Init(w) && w.address == Some(2)
    ensures IsRun(ws, acts) && ws[0] == w
    ensures var v := ws[|acts|];
            v.ledger.phase == Received && item in v.hist.notified && v.files.Readable(item)
  {
    var go := Go(1, AnsQueued);
    ws, acts := PushOnce(w, item, text);
    ws, acts := NotifiedOnce(ws, acts, item);
    ws, acts := Extend(ws, acts, Start(1, Receive(Some(Random(0)), limit)));
    var v, path := OpenCall(ws[|acts|], 1, Receive(Some(Random(0)), limit), go);
    ws, acts := ExtendBy(ws, acts, path, v, 1, go);
    ws, acts := ReadFailsOnce(ws, acts, 1, item, go);
    var u := ws[|acts|];
    v, path := ObserveAlone(u, 1, u.procs[1], go);
    PathKeepsOthers(u, v, path, 1, go);
    ws, acts := ExtendBy(ws, acts, path, v, 1, go);
  }
}
