/** A legacy run in which an item is submitted to the host twice: the listing of
    a notify between the two calls failed to read it. */
module LegacyRuns {
  import opened Order
  import opened MailFiles
  import opened Ledgers
  import opened Protocol
  import opened Runs
  import opened Agreement
  import opened LegacyDedup
  import W = Witnesses
  import M = Mailbox

  lemma ExtendLegacy(ws: seq<World>, acts: seq<Action>, a: Action) returns (more: seq<World>, steps: seq<Action>)
    requires LegacyRun(ws, acts) && Enabled(ws[|acts|], a) && Settles(ws[|acts|], a) && !a.Register?
    ensures LegacyRun(more, steps) && more[0] == ws[0] && more[|steps|] == Next(ws[|acts|], a)
  {
    more, steps := Extend(ws, acts, a);
    assert Next(ws[|acts|], a).address == ws[|acts|].address by {
      if a.Advance? { StepKeepsOthers(ws[|acts|], a.pid, a.choice); }
    }
    forall k | 0 <= k < |steps|
      ensures Settles(more[k], steps[k])
    {
      if k < |acts| { assert more[k] == ws[k] && steps[k] == acts[k]; }
    }
  }

  lemma ExtendLegacyBy(ws: seq<World>, acts: seq<Action>, path: seq<World>, v: World, pid: Pid, go: Choice)
    returns (more: seq<World>, steps: seq<Action>)
    requires LegacyRun(ws, acts) && Leads(ws[|acts|], v, path, pid, go) && go.answer == AnsQueued && !go.fail
    ensures LegacyRun(more, steps) && more[0] == ws[0] && more[|steps|] == v
  {
    more, steps := ws, acts;
    var n := 0;
    while n < |path| - 1
      invariant 0 <= n < |path|
      invariant LegacyRun(more, steps) && more[0] == ws[0] && more[|steps|] == path[n]
    {
      assert StepAt(path, n, pid, go);
      more, steps := ExtendLegacy(more, steps, Advance(pid, go));
      n := n + 1;
    }
  }

  /** Nothing is running and the address is not at protocol 2. */
  ghost predicate AtRest(w: World) {
    w.procs == map[] && w.lock == None && w.address != Some(2)
  }

  /** A call of notify that has listed these ids, before its decision. */
  ghost predicate Choosing(w: World, v: World, pid: Pid, item: Id, ids: seq<Id>) {
    && v.procs.Keys == {pid} && At(v, pid, v.procs[pid])
    && v.procs[pid].pc == Choose && v.procs[pid].call == Notify(item) && v.procs[pid].ids == ids
    && v.procs[pid].st == w.ledger && !v.procs[pid].compatible
    && v.files == w.files && v.ledger == w.ledger && v.clock == w.clock && v.address == w.address
    && (v.lock == None || v.lock == Some(pid))
    && v.hist == w.hist.(pids := w.hist.pids + {pid})
  }

  /** What a submitted and queued notify leaves behind. */
  ghost predicate NotifyQueued(w: World, v: World, pid: Pid, item: Id, ids: seq<Id>, nonce: nat) {
    && AtRest(v) && v.files == w.files && v.clock == w.clock && v.hist.pushed == w.hist.pushed
    && v.ledger == Settle(Begin(w.ledger, false, ids, w.clock, nonce), false, ids, AnsQueued)
    && v.hist.pids == w.hist.pids + {pid} && v.hist.nonces == w.hist.nonces + {nonce}
    && |v.hist.handed| == |w.hist.handed| + 1 && SameCalls(w.hist.handed, v.hist.handed, |w.hist.handed|)
    && v.hist.handed[|w.hist.handed|].item == item && v.hist.handed[|w.hist.handed|].ids == ids
  }

  /** From the decision to the return. */
  lemma ChooseToReturn(w: World, u: World, pid: Pid, item: Id, ids: seq<Id>, go: Choice)
    returns (v: World, path: seq<World>)
    requires Choosing(w, u, pid, item, ids) && !go.fail && go.answer == AnsQueued && go.nonce !in w.hist.nonces
    requires Decide(w.ledger, item, false, w.clock) == Submit
    ensures Leads(u, v, path, pid, go) && OthersKept(u, v, pid)
    ensures pid in v.procs && v.procs[pid].pc == Return
    ensures v.files == w.files && HandedOne(w, v, item, ids, go.nonce)
    ensures v.ledger == Settle(Begin(w.ledger, false, ids, w.clock, go.nonce), false, ids, AnsQueued)
  {
    var x, xs, q := DecideAlone(u, pid, u.procs[pid], go);
    v, path := SubmitAlone(x, pid, q, go);
    Join(u, x, v, xs, path, pid, go);
    path := xs + path[1..];
    PathKeepsOthers(u, v, path, pid, go);
  }

  ghost predicate HandedOne(w: World, v: World, item: Id, ids: seq<Id>, nonce: nat) {
    && v.hist.nonces == w.hist.nonces + {nonce}
    && |v.hist.handed| == |w.hist.handed| + 1 && SameCalls(w.hist.handed, v.hist.handed, |w.hist.handed|)
    && v.hist.handed[|w.hist.handed|].item == item && v.hist.handed[|w.hist.handed|].ids == ids
  }

  /** The rest of a notify from its decision on, to the end of the call. */
  lemma FinishNotify(ws: seq<World>, acts: seq<Action>, w: World, pid: Pid, item: Id, ids: seq<Id>, nonce: nat)
    returns (more: seq<World>, steps: seq<Action>)
    requires LegacyRun(ws, acts) && Choosing(w, ws[|acts|], pid, item, ids) && nonce !in w.hist.nonces
    requires Decide(w.ledger, item, false, w.clock) == Submit && w.address != Some(2)
    ensures LegacyRun(more, steps) && more[0] == ws[0] && NotifyQueued(w, more[|steps|], pid, item, ids, nonce)
  {
    var go := W.Go(nonce, AnsQueued);
    var v, path := ChooseToReturn(w, ws[|acts|], pid, item, ids, go);
    assert v.procs.Keys == (v.procs - {pid}).Keys + {pid};
    more, steps := ExtendLegacyBy(ws, acts, path, v, pid, go);
    W.LeaveOnce(v, pid);
    ReturnStep(v, pid, go);
    more, steps := ExtendLegacy(more, steps, Advance(pid, go));
  }

  /** A notify whose listing reads everything. */
  lemma NotifyOnce(ws: seq<World>, acts: seq<Action>, pid: Pid, item: Id, nonce: nat)
    returns (more: seq<World>, steps: seq<Action>)
    requires LegacyRun(ws, acts) && AtRest(ws[|acts|]) && ws[|acts|].files.Readable(item)
    requires var w := ws[|acts|];
             && pid !in w.hist.pids && nonce !in w.hist.nonces
             && Decide(w.ledger, item, false, w.clock) == Submit
    ensures LegacyRun(more, steps) && more[0] == ws[0]
    ensures NotifyQueued(ws[|acts|], more[|steps|], pid, item, M.Listing(ws[|acts|].files), nonce)
  {
    var w, go := ws[|acts|], W.Go(nonce, AnsQueued);
    W.ListedWhenReadable(w.files, item);
    more, steps := ExtendLegacy(ws, acts, Start(pid, Notify(item)));
    var u := more[|steps|];
    var v, path := NotifyToChoice(u, pid, item, go);
    PathKeepsOthers(u, v, path, pid, go);
    assert v.procs.Keys == (v.procs - {pid}).Keys + {pid};
    more, steps := ExtendLegacyBy(more, steps, path, v, pid, go);
    more, steps := FinishNotify(more, steps, w, pid, item, M.Listing(w.files), nonce);
  }

  /** A listing of two readable items that fails to read one of them. */
  lemma ReadOneOfTwo(ws: seq<World>, acts: seq<Action>, pid: Pid, a: Id, b: Id)
    returns (more: seq<World>, steps: seq<Action>)
    requires LegacyRun(ws, acts) && a != b
    requires var w := ws[|acts|];
             && w.files.pending.Keys == {a, b} && w.files.Readable(a) && w.files.Readable(b)
             && pid in w.procs && At(w, pid, w.procs[pid]) && w.procs[pid].pc == Scan && w.procs[pid].call.Notify?
    ensures LegacyRun(more, steps) && more[0] == ws[0]
    ensures var w, v := ws[|acts|], more[|steps|];
            v == w.Set(pid, AfterListing(ReadPast(w.procs[pid], a, b, w.hist.pushed.Keys), w.clock))
  {
    var w := ws[|acts|];
    var names := Sorted(w.files.pending.Keys);
    TwoNames(names, a, b);
    more, steps := ScanStep(ws, acts, pid, w.procs[pid], names);
    var q := AfterScan(w.procs[pid], names, w.hist.pushed.Keys);
    more, steps := ReadTwo(more, steps, w, pid, q, names, a, b);
    more, steps := ListStep(more, steps, w, pid, ReadPast(w.procs[pid], a, b, w.hist.pushed.Keys));
  }

  /** The locals of a call whose listing has read b and missed a. */
  function ReadPast(p: Proc, a: Id, b: Id, published: set<Id>): Proc {
    p.(ids := [b], todo := [], base := published, missed := {a}, pc := ReadItem)
  }

  lemma ScanStep(ws: seq<World>, acts: seq<Action>, pid: Pid, p: Proc, names: seq<Id>)
    returns (more: seq<World>, steps: seq<Action>)
    requires LegacyRun(ws, acts) && At(ws[|acts|], pid, p) && p.pc == Scan
    requires names == Sorted(ws[|acts|].files.pending.Keys)
    ensures LegacyRun(more, steps) && more[0] == ws[0]
    ensures more[|steps|] == ws[|acts|].Set(pid, AfterScan(p, names, ws[|acts|].hist.pushed.Keys))
  {
    more, steps := ExtendLegacy(ws, acts, Advance(pid, Choice(false, 0, AnsQueued)));
  }

  lemma ListStep(ws: seq<World>, acts: seq<Action>, w: World, pid: Pid, q: Proc)
    returns (more: seq<World>, steps: seq<Action>)
    requires LegacyRun(ws, acts) && ws[|acts|] == w.Set(pid, q) && q.pc == ReadItem && q.todo == [] && q.call.Notify?
    ensures LegacyRun(more, steps) && more[0] == ws[0]
    ensures more[|steps|] == w.Set(pid, AfterListing(q, w.clock))
  {
    more, steps := ExtendLegacy(ws, acts, Advance(pid, Choice(false, 0, AnsQueued)));
    SetTwice(w, pid, q, AfterListing(q, w.clock));
  }

  lemma ReadTwo(ws: seq<World>, acts: seq<Action>, w: World, pid: Pid, q: Proc, names: seq<Id>, a: Id, b: Id)
    returns (more: seq<World>, steps: seq<Action>)
    requires LegacyRun(ws, acts) && ws[|acts|] == w.Set(pid, q) && Shaped(q) && q.pc == ReadItem && a != b
    requires (names == [a, b] || names == [b, a]) && q.todo == names && q.ids == [] && q.missed == {}
    requires w.files.Readable(a) && w.files.Readable(b)
    ensures LegacyRun(more, steps) && more[0] == ws[0]
    ensures more[|steps|] == w.Set(pid, ReadPast(q, a, b, q.base))
  {
    var first, second := names[0] == a, names[1] == a;
    more, steps := ReadStep(ws, acts, pid, q, Choice(first, 0, AnsQueued));
    var r := AfterRead(q, true, first);
    SetTwice(w, pid, q, r);
    more, steps := ReadStep(more, steps, pid, r, Choice(second, 0, AnsQueued));
    var s := AfterRead(r, true, second);
    SetTwice(w, pid, r, s);
    assert s == ReadPast(q, a, b, q.base);
  }

  lemma TwoNames(names: seq<Id>, a: Id, b: Id)
    requires names == Sorted({a, b}) && a != b
    ensures names == [a, b] || names == [b, a]
  {
    assert |{a, b}| == 2;
    AscendingIsDistinct(names);
    assert names[0] in names && names[1] in names;
  }

  lemma ReadStep(ws: seq<World>, acts: seq<Action>, pid: Pid, q: Proc, c: Choice)
    returns (more: seq<World>, steps: seq<Action>)
    requires LegacyRun(ws, acts) && At(ws[|acts|], pid, q) && q.pc == ReadItem && q.todo != [] && c.answer == AnsQueued
    requires ws[|acts|].files.Readable(q.todo[0])
    ensures LegacyRun(more, steps) && more[0] == ws[0]
    ensures more[|steps|] == ws[|acts|].Set(pid, AfterRead(q, true, c.fail))
  {
    more, steps := ExtendLegacy(ws, acts, Advance(pid, c));
  }

  /** A notify of b whose listing fails to read a. */
  lemma NotifyPast(ws: seq<World>, acts: seq<Action>, pid: Pid, a: Id, b: Id, nonce: nat)
    returns (more: seq<World>, steps: seq<Action>)
    requires LegacyRun(ws, acts) && AtRest(ws[|acts|]) && a != b
    requires var w := ws[|acts|];
             && w.files.pending.Keys == {a, b} && w.files.Readable(a) && w.files.Readable(b)
             && pid !in w.hist.pids && nonce !in w.hist.nonces
             && Decide(w.ledger, b, false, w.clock) == Submit
    ensures LegacyRun(more, steps) && more[0] == ws[0] && NotifyQueued(ws[|acts|], more[|steps|], pid, b, [b], nonce)
  {
    var w := ws[|acts|];
    more, steps := OpenOnce(ws, acts, pid, b);
    var p := more[|steps|].procs[pid];
    more, steps := ReadOneOfTwo(more, steps, pid, a, b);
    more, steps := ListedToChoice(more, steps, w, pid, p, a, b);
    more, steps := FinishNotify(more, steps, w, pid, b, [b], nonce);
  }

  /** A notify that is about to list pending/. */
  ghost predicate Scanning(w: World, v: World, pid: Pid, item: Id) {
    && v.procs == map[pid := Begun(Notify(item)).(st := w.ledger, pc := Scan)]
    && v.files == w.files && v.ledger == w.ledger && v.clock == w.clock && v.address == w.address
    && (v.lock == None || v.lock == Some(pid))
    && v.hist == w.hist.(pids := w.hist.pids + {pid})
  }

  lemma OpenOnce(ws: seq<World>, acts: seq<Action>, pid: Pid, item: Id) returns (more: seq<World>, steps: seq<Action>)
    requires LegacyRun(ws, acts) && AtRest(ws[|acts|]) && pid !in ws[|acts|].hist.pids
    ensures LegacyRun(more, steps) && more[0] == ws[0] && Scanning(ws[|acts|], more[|steps|], pid, item)
  {
    var go := W.Go(0, AnsQueued);
    more, steps := ExtendLegacy(ws, acts, Start(pid, Notify(item)));
    var u := more[|steps|];
    var v, path := OpenCall(u, pid, Notify(item), go);
    PathKeepsOthers(u, v, path, pid, go);
    assert v.procs.Keys == (v.procs - {pid}).Keys + {pid};
    more, steps := ExtendLegacyBy(more, steps, path, v, pid, go);
  }

  /** From the end of that listing to the decision. */
  lemma ListedToChoice(ws: seq<World>, acts: seq<Action>, w: World, pid: Pid, p: Proc, a: Id, b: Id)
    returns (more: seq<World>, steps: seq<Action>)
    requires LegacyRun(ws, acts) && AtRest(w) && p == Begun(Notify(b)).(st := w.ledger, pc := Scan)
    requires exists u :: Scanning(w, u, pid, b) &&
               ws[|acts|] == u.Set(pid, AfterListing(ReadPast(p, a, b, u.hist.pushed.Keys), u.clock))
    ensures LegacyRun(more, steps) && more[0] == ws[0] && Choosing(w, more[|steps|], pid, b, [b])
  {
    var go, u := W.Go(0, AnsQueued), ws[|acts|];
    var v, path := AddressAlone(u, pid, u.procs[pid], go);
    PathKeepsOthers(u, v, path, pid, go);
    assert v.procs.Keys == (v.procs - {pid}).Keys + {pid};
    more, steps := ExtendLegacyBy(ws, acts, path, v, pid, go);
  }

  lemma PushLegacy(ws: seq<World>, acts: seq<Action>, item: Id, text: string)
    returns (more: seq<World>, steps: seq<Action>)
    requires LegacyRun(ws, acts) && AtRest(ws[|acts|]) && item !in ws[|acts|].hist.pushed
    ensures LegacyRun(more, steps) && more[0] == ws[0]
    ensures var w, v := ws[|acts|], more[|steps|];
            && AtRest(v) && v.ledger == w.ledger && v.clock == w.clock
            && v.files == w.files.Publish(item, Good(text))
            && v.hist == w.hist.(pushed := w.hist.pushed[item := Good(text)])
  {
    more, steps := ExtendLegacy(ws, acts, Push(item, Good(text)));
  }

  /** Covered by the first host call, and submitted again by the third: the
      listing of the second could not read it. */
  lemma CoveredCanBeResubmitted(w: World, a: Id, b: Id, text: string) returns (ws: seq<World>, acts: seq<Action>)
    requires Init(w) && w.address != Some(2) && a != b
    ensures LegacyRun(ws, acts) && ws[0] == w
    ensures var handed := ws[|acts|].hist.handed;
            |handed| == 3 && a in handed[0].ids && handed[2].item == a
  {
    ws, acts := CoverOne(w, a, text);
    ws, acts := PushLegacy(ws, acts, b, text);
    ws, acts := NotifyPast(ws, acts, 1, a, b, 1);
    ws, acts := NotifyOnce(ws, acts, 2, a, 2);
  }

  lemma CoverOne(w: World, a: Id, text: string) returns (ws: seq<World>, acts: seq<Action>)
    requires Init(w) && w.address != Some(2)
    ensures LegacyRun(ws, acts) && ws[0] == w
    ensures var v := ws[|acts|];
            && AtRest(v) && v.files == EMPTY_FILES.Publish(a, Good(text))
            && v.ledger.phase == Queued && !v.ledger.coalescing && v.ledger.notified == [a]
            && v.hist.pids == {0} && v.hist.nonces == {0} && v.hist.pushed == map[a := Good(text)]
            && |v.hist.handed| == 1 && v.hist.handed[0].ids == [a]
  {
    ws, acts := [w], [];
    ws, acts := PushLegacy(ws, acts, a, text);
    ListsOne(ws[|acts|].files, a);
    ws, acts := NotifyOnce(ws, acts, 0, a, 0);
  }

  lemma ListsOne(fs: Files, a: Id)
    requires fs.pending.Keys == {a} && fs.Readable(a)
    ensures M.Listing(fs) == [a]
  {
    assert M.ReadableIds(fs) == {a};
    W.OnlyName({a}, a);
  }
}
