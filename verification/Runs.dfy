/** Runs put together piece by piece: the steps one call takes by itself, and a
    run continued by an action or by such steps. */
module Runs {
  import opened MailFiles
  import opened Protocol

  /** Worlds i and i + 1 are joined by a step of one call. */
  ghost predicate StepAt(ws: seq<World>, i: nat, pid: Pid, go: Choice)
    requires i + 1 < |ws|
  {
    Enabled(ws[i], Advance(pid, go)) && ws[i + 1] == Next(ws[i], Advance(pid, go))
  }

  /** The worlds one call passes through with no other step between. */
  ghost predicate Path(ws: seq<World>, pid: Pid, go: Choice) {
    ws != [] && forall i {:trigger StepAt(ws, i, pid, go)} | 0 <= i < |ws| - 1 :: StepAt(ws, i, pid, go)
  }

  ghost predicate Leads(w: World, v: World, ws: seq<World>, pid: Pid, go: Choice) {
    Path(ws, pid, go) && ws[0] == w && ws[|ws| - 1] == v
  }

  lemma Join(w: World, u: World, v: World, a: seq<World>, b: seq<World>, pid: Pid, go: Choice)
    requires Leads(w, u, a, pid, go) && Leads(u, v, b, pid, go)
    ensures Leads(w, v, a + b[1..], pid, go)
  {
    var ws := a + b[1..];
    forall i | 0 <= i < |ws| - 1
      ensures StepAt(ws, i, pid, go)
    {
      if i < |a| - 1 {
        assert StepAt(a, i, pid, go);
      } else {
        assert StepAt(b, i - |a| + 1, pid, go);
        assert ws[i] == b[i - |a| + 1];
      }
    }
  }

  ghost predicate At(w: World, pid: Pid, p: Proc) {
    pid in w.procs && w.procs[pid] == p && Shaped(p)
  }

  lemma OneStep(w: World, pid: Pid, p: Proc, go: Choice) returns (v: World, ws: seq<World>)
    requires At(w, pid, p) && Possible(w, pid, Plan(w, p, go).1)
    ensures v == Apply(w, pid, Plan(w, p, go).0, Plan(w, p, go).1) && Leads(w, v, ws, pid, go)
  {
    v := Next(w, Advance(pid, go));
    ws := [w, v];
    assert StepAt(ws, 0, pid, go);
  }

  /** What the steps of one call leave alone. */
  ghost predicate OthersKept(w: World, v: World, pid: Pid) {
    && v.address == w.address && v.clock == w.clock
    && v.hist.pids == w.hist.pids && v.hist.pushed == w.hist.pushed && w.hist.notified <= v.hist.notified
    && v.procs - {pid} == w.procs - {pid}
    && (w.lock == None || w.lock == Some(pid) ==> v.lock == None || v.lock == Some(pid))
  }

  lemma StepKeepsOthers(w: World, pid: Pid, go: Choice)
    requires Enabled(w, Advance(pid, go))
    ensures OthersKept(w, Next(w, Advance(pid, go)), pid)
  {
    var (p, e) := Plan(w, w.procs[pid], go);
    EffectKeepsOthers(w, pid, p, e);
  }

  lemma EffectKeepsOthers(w: World, pid: Pid, p: Proc, e: Effect)
    requires Possible(w, pid, e)
    ensures OthersKept(w, Apply(w, pid, p, e), pid)
  {
    EffectOnCalls(w, pid, p, e);
  }

  lemma Shorter(ws: seq<World>, pid: Pid, go: Choice)
    requires Path(ws, pid, go) && |ws| > 1
    ensures Path(ws[..|ws| - 1], pid, go)
  {
    var front := ws[..|ws| - 1];
    forall i | 0 <= i < |front| - 1
      ensures StepAt(front, i, pid, go)
    {
      assert StepAt(ws, i, pid, go);
    }
  }

  lemma {:induction false} PathKeepsOthers(w: World, v: World, ws: seq<World>, pid: Pid, go: Choice)
    requires Leads(w, v, ws, pid, go)
    ensures OthersKept(w, v, pid)
    decreases |ws|
  {
    if |ws| > 1 {
      var front, n := ws[..|ws| - 1], |ws| - 2;
      Shorter(ws, pid, go);
      PathKeepsOthers(w, ws[n], front, pid, go);
      assert StepAt(ws, n, pid, go);
      StepKeepsOthers(ws[n], pid, go);
      KeptTwice(w, ws[n], v, pid);
    }
  }

  lemma KeptTwice(w: World, u: World, v: World, pid: Pid)
    requires OthersKept(w, u, pid) && OthersKept(u, v, pid)
    ensures OthersKept(w, v, pid)
  {
  }

  // ---- Continuing a run ----

  lemma Extend(ws: seq<World>, acts: seq<Action>, a: Action) returns (more: seq<World>, steps: seq<Action>)
    requires IsRun(ws, acts) && Enabled(ws[|acts|], a)
    ensures steps == acts + [a] && more == ws + [Next(ws[|acts|], a)]
    ensures IsRun(more, steps) && more[0] == ws[0] && more[|steps|] == Next(ws[|acts|], a)
  {
    steps := acts + [a];
    more := ws + [Next(ws[|acts|], a)];
    forall i | 0 <= i < |steps|
      ensures Enabled(more[i], steps[i]) && more[i + 1] == Next(more[i], steps[i])
    {
      if i < |acts| { assert steps[i] == acts[i] && more[i] == ws[i] && more[i + 1] == ws[i + 1]; }
    }
  }

  lemma ExtendBy(ws: seq<World>, acts: seq<Action>, path: seq<World>, v: World, pid: Pid, go: Choice)
    returns (more: seq<World>, steps: seq<Action>)
    requires IsRun(ws, acts) && Leads(ws[|acts|], v, path, pid, go)
    ensures IsRun(more, steps) && more[0] == ws[0] && more[|steps|] == v
  {
    more, steps := ws, acts;
    var n := 0;
    while n < |path| - 1
      invariant 0 <= n < |path|
      invariant IsRun(more, steps) && more[0] == ws[0] && more[|steps|] == path[n]
    {
      assert StepAt(path, n, pid, go);
      more, steps := Extend(more, steps, Advance(pid, go));
      n := n + 1;
    }
  }
}
