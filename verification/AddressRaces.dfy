/** Puts and removals of addresses by several processes at once. A put publishes
    the address, makes its index directory and writes a marker there. A removal
    reads the address, removes it, prunes the marker of the directory it read,
    and removes that directory if it is empty. */
module AddressRaces {
  import opened MailFiles
  import opened AddressIndex

  /** A put that has published: the marker still to be written, and whether it
      has made the marker's directory. */
  datatype PutCall = PutCall(marker: Marker, made: bool)

  datatype Progress = Known | Deleted | Pruned

  /** A removal in progress: the marker to prune, if the address it read names
      one, and how far it is. */
  datatype Removal = Removal(slot: Slot, prune: Option<Marker>, stage: Progress)

  /** `broken` is history: the markers whose last put ended, in an error or a
      crash, without writing them. */
  datatype World = World(store: Store, puts: map<nat, PutCall>, removals: map<nat, Removal>, broken: set<Marker>)

  const QUIET := World(EMPTY_STORE, map[], map[], {})

  datatype Action =
    | Publish(pid: nat, slot: Slot, address: Address)
    | MakeDir(pid: nat)
    | Mark(pid: nat)
    | CrashPut(pid: nat)
    | ReadToRemove(pid: nat, slot: Slot)
    | Delete(pid: nat)
    | Prune(pid: nat)
    | RemoveDir(pid: nat)
    | CrashRemoval(pid: nat)

  /** One step. A step that is not possible changes nothing. A marker cannot be
      written into a directory that is gone, and the put then ends in an error. */
  function Step(hash: Hash, w: World, act: Action): World {
    match act
    case Publish(pid, slot, a) => if pid in w.puts then w else PublishStep(hash, w, pid, slot, a)
    case MakeDir(pid) =>
      if pid !in w.puts || w.puts[pid].made then w
      else
        var p := w.puts[pid];
        w.(store := w.store.(dirs := w.store.dirs + {Home(p.marker)}), puts := w.puts[pid := p.(made := true)])
    case Mark(pid) => if pid !in w.puts || !w.puts[pid].made then w else MarkStep(w, pid)
    case CrashPut(pid) => if pid !in w.puts then w else EndPut(w, pid)
    case ReadToRemove(pid, slot) =>
      if pid in w.removals then w
      else
        var prune := if slot in w.store.addrs then MarkerFor(hash, slot, w.store.addrs[slot].cwd) else None;
        w.(removals := w.removals[pid := Removal(slot, prune, Known)])
    case Delete(pid) => if pid !in w.removals || w.removals[pid].stage != Known then w else DeleteStep(w, pid)
    case Prune(pid) =>
      if pid !in w.removals || w.removals[pid].stage != Deleted || w.removals[pid].prune == None then w
      else
        var r := w.removals[pid];
        w.(store := w.store.(markers := w.store.markers - {r.prune.value}),
           removals := w.removals[pid := r.(stage := Pruned)])
    case RemoveDir(pid) =>
      if pid !in w.removals || w.removals[pid].stage != Pruned || w.removals[pid].prune == None then w
      else w.(store := DropDir(w.store, Home(w.removals[pid].prune.value)), removals := w.removals - {pid})
    case CrashRemoval(pid) => w.(removals := w.removals - {pid})
  }

  function PublishStep(hash: Hash, w: World, pid: nat, slot: Slot, a: Address): World {
    var published := w.(store := w.store.(addrs := w.store.addrs[slot := a]));
    match MarkerFor(hash, slot, a.cwd)
    case None => published
    case Some(m) => published.(puts := w.puts[pid := PutCall(m, false)], broken := w.broken - {m})
  }

  function MarkStep(w: World, pid: nat): World
    requires pid in w.puts
  {
    var m := w.puts[pid].marker;
    if Home(m) in w.store.dirs then
      w.(store := w.store.(markers := w.store.markers + {m}), puts := w.puts - {pid}, broken := w.broken - {m})
    else EndPut(w, pid)
  }

  function EndPut(w: World, pid: nat): World
    requires pid in w.puts
  {
    w.(puts := w.puts - {pid}, broken := w.broken + {w.puts[pid].marker})
  }

  /** An address that names no marker leaves nothing more to do. */
  function DeleteStep(w: World, pid: nat): World
    requires pid in w.removals
  {
    var r := w.removals[pid];
    w.(store := w.store.(addrs := w.store.addrs - {r.slot}),
       removals := if r.prune == None then w.removals - {pid} else w.removals[pid := r.(stage := Deleted)])
  }

  function Run(hash: Hash, acts: seq<Action>): World {
    if acts == [] then QUIET else Step(hash, Run(hash, acts[..|acts| - 1]), acts[|acts| - 1])
  }

  // ---- The steps and the programs ----

  /** Undisturbed, the steps of a put make up the program's operation. */
  lemma StepsMakeAPut(hash: Hash, w: World, pid: nat, a: Address)
    requires pid !in w.puts && SlotOf(a.agent, a.name).Some?
    ensures var published := Step(hash, w, Publish(pid, SlotOf(a.agent, a.name).value, a));
            var v := Step(hash, Step(hash, published, MakeDir(pid)), Mark(pid));
            v.store == Put(hash, w.store, a, NoFault) && v.puts == w.puts && v.removals == w.removals
  {
    var published := Step(hash, w, Publish(pid, SlotOf(a.agent, a.name).value, a));
    var made := Step(hash, published, MakeDir(pid));
    assert made.puts - {pid} == w.puts;
  }

  lemma StepsMakeARemoval(hash: Hash, w: World, pid: nat, agent: string, name: string)
    requires pid !in w.removals && SlotOf(agent, name).Some?
    ensures var read := Step(hash, w, ReadToRemove(pid, SlotOf(agent, name).value));
            var deleted := Step(hash, read, Delete(pid));
            Step(hash, Step(hash, deleted, Prune(pid)), RemoveDir(pid))
            == w.(store := Remove(hash, w.store, agent, name, NoFault))
  {
    var slot := SlotOf(agent, name).value;
    var read := Step(hash, w, ReadToRemove(pid, slot));
    assert read.removals - {pid} == w.removals;
    if read.removals[pid].prune.Some? { PrunedRemoval(hash, w, read, pid); }
  }

  lemma PrunedRemoval(hash: Hash, w: World, read: World, pid: nat)
    requires pid !in w.removals && pid in read.removals && read.removals[pid].stage == Known
    requires read.removals[pid].prune.Some? && read == w.(removals := w.removals[pid := read.removals[pid]])
    ensures var r := read.removals[pid];
            var gone := w.store.(addrs := w.store.addrs - {r.slot}, markers := w.store.markers - {r.prune.value});
            Step(hash, Step(hash, Step(hash, read, Delete(pid)), Prune(pid)), RemoveDir(pid))
            == w.(store := DropDir(gone, Home(r.prune.value)))
  {
    var deleted := Step(hash, read, Delete(pid));
    var pruned := Step(hash, deleted, Prune(pid));
    assert pruned.removals - {pid} == w.removals;
  }

  // ---- Puts and removals that keep apart ----

  /** A put and a removal in the same index directory do not overlap. */
  ghost predicate Orderly(hash: Hash, w: World, act: Action) {
    match act
    case Publish(_, slot, a) =>
      MarkerFor(hash, slot, a.cwd).Some? ==>
        forall pid | pid in w.removals && w.removals[pid].prune.Some? ::
          Home(w.removals[pid].prune.value) != Home(MarkerFor(hash, slot, a.cwd).value)
    case ReadToRemove(_, slot) =>
      slot in w.store.addrs && MarkerFor(hash, slot, w.store.addrs[slot].cwd).Some? ==>
        forall pid | pid in w.puts ::
          Home(w.puts[pid].marker) != Home(MarkerFor(hash, slot, w.store.addrs[slot].cwd).value)
    case _ => true
  }

  ghost predicate OrderlyRun(hash: Hash, acts: seq<Action>) {
    if acts == [] then true
    else
      var before := acts[..|acts| - 1];
      OrderlyRun(hash, before) && Orderly(hash, Run(hash, before), acts[|acts| - 1])
  }

  /** The marker an address needs is written, about to be written, or was given
      up by its last put. */
  ghost predicate Due(hash: Hash, w: World, slot: Slot) {
    slot in w.store.addrs && MarkerFor(hash, slot, w.store.addrs[slot].cwd).Some? ==>
      var m := MarkerFor(hash, slot, w.store.addrs[slot].cwd).value;
      m in w.store.markers || InProgress(w, m) || m in w.broken
  }

  ghost predicate InProgress(w: World, m: Marker) {
    exists pid :: pid in w.puts && w.puts[pid].marker == m
  }

  predicate Names(hash: Hash, s: Store, slot: Slot, m: Marker) {
    slot in s.addrs && MarkerFor(hash, slot, s.addrs[slot].cwd) == Some(m)
  }

  /** A removal prunes its own target's marker, once no address needs it, and no
      put is at work in its directory. */
  ghost predicate Harmless(hash: Hash, w: World) {
    forall pid | pid in w.removals && w.removals[pid].prune.Some? ::
      var r := w.removals[pid];
      && r.prune.value.agent == r.slot.agent && r.prune.value.name == r.slot.name
      && (r.stage != Known ==> !Names(hash, w.store, r.slot, r.prune.value))
      && (forall p | p in w.puts :: Home(w.puts[p].marker) != Home(r.prune.value))
  }

  /** Every marker is in a directory that exists, and so will be the next. */
  ghost predicate Housed(w: World) {
    && (forall m | m in w.store.markers :: Home(m) in w.store.dirs)
    && (forall p | p in w.puts && w.puts[p].made :: Home(w.puts[p].marker) in w.store.dirs)
  }

  lemma StepIsHarmless(hash: Hash, w: World, act: Action)
    requires Harmless(hash, w) && Orderly(hash, w, act)
    ensures Harmless(hash, Step(hash, w, act))
  {
  }

  lemma StepIsHoused(hash: Hash, w: World, act: Action)
    requires Harmless(hash, w) && Housed(w)
    ensures Housed(Step(hash, w, act))
  {
  }

  lemma StepStaysDue(hash: Hash, w: World, act: Action, slot: Slot)
    requires Harmless(hash, w) && Due(hash, w, slot)
    ensures Due(hash, Step(hash, w, act), slot)
  {
    var next := Step(hash, w, act);
    if slot in next.store.addrs && MarkerFor(hash, slot, next.store.addrs[slot].cwd).Some? {
      var m := MarkerFor(hash, slot, next.store.addrs[slot].cwd).value;
      if act.Publish? && act.slot == slot && act.pid !in w.puts {
        assert next.puts[act.pid].marker == m;
      } else {
        assert Names(hash, w.store, slot, m);
        MarkerStaysDue(hash, w, act, slot, m);
      }
    }
  }

  lemma MarkerStaysDue(hash: Hash, w: World, act: Action, slot: Slot, m: Marker)
    requires Harmless(hash, w) && Names(hash, w.store, slot, m)
    requires m in w.store.markers || InProgress(w, m) || m in w.broken
    ensures var next := Step(hash, w, act); m in next.store.markers || InProgress(next, m) || m in next.broken
  {
    var next := Step(hash, w, act);
    if m !in w.store.markers && InProgress(w, m) {
      var pid :| pid in w.puts && w.puts[pid].marker == m;
      if pid in next.puts { assert next.puts[pid].marker == m; }
    }
    if act.Publish? && act.pid !in w.puts && act.pid in next.puts {
      assert InProgress(next, next.puts[act.pid].marker);
    }
  }

  /** In an orderly run a marker's directory is there when the marker is to be
      written, so that no put fails for want of it. */
  lemma {:induction false} OrderlyRunsAreDue(hash: Hash, acts: seq<Action>)
    requires OrderlyRun(hash, acts)
    ensures Harmless(hash, Run(hash, acts)) && Housed(Run(hash, acts))
    ensures forall slot :: Due(hash, Run(hash, acts), slot)
  {
    if acts != [] {
      var before, act := acts[..|acts| - 1], acts[|acts| - 1];
      OrderlyRunsAreDue(hash, before);
      StepIsHarmless(hash, Run(hash, before), act);
      StepIsHoused(hash, Run(hash, before), act);
      forall slot
        ensures Due(hash, Run(hash, acts), slot)
      {
        StepStaysDue(hash, Run(hash, before), act, slot);
      }
    }
  }

  predicate NoPutCrashes(acts: seq<Action>) {
    forall k | 0 <= k < |acts| :: !acts[k].CrashPut?
  }

  lemma {:induction false} OrderlyPutsSucceed(hash: Hash, acts: seq<Action>)
    requires OrderlyRun(hash, acts) && NoPutCrashes(acts)
    ensures Run(hash, acts).broken == {}
  {
    if acts != [] {
      var before, act := acts[..|acts| - 1], acts[|acts| - 1];
      assert NoPutCrashes(before) by {
        forall k | 0 <= k < |before|
          ensures !before[k].CrashPut?
        {
          assert before[k] == acts[k];
        }
      }
      OrderlyPutsSucceed(hash, before);
      OrderlyRunsAreDue(hash, before);
      assert !act.CrashPut?;
      NothingBreaks(hash, Run(hash, before), act);
    }
  }

  lemma NothingBreaks(hash: Hash, w: World, act: Action)
    requires Housed(w) && w.broken == {} && !act.CrashPut?
    ensures Step(hash, w, act).broken == {}
  {
  }

  /** Puts may overlap each other, and removals each other, in any way: when no
      put is in progress every registered address is marked, save those whose
      last put was cut short; and if no put crashed the index is complete. */
  lemma CompleteOncePutsAreDone(hash: Hash, acts: seq<Action>)
    requires OrderlyRun(hash, acts) && Run(hash, acts).puts == map[]
    ensures forall slot, m | Names(hash, Run(hash, acts).store, slot, m) ::
              m in Run(hash, acts).store.markers || m in Run(hash, acts).broken
    ensures NoPutCrashes(acts) ==> Indexed(hash, Run(hash, acts).store)
  {
    OrderlyRunsAreDue(hash, acts);
    if NoPutCrashes(acts) { OrderlyPutsSucceed(hash, acts); }
    var w := Run(hash, acts);
    forall slot, m | Names(hash, w.store, slot, m)
      ensures m in w.store.markers || m in w.broken
    {
      assert Due(hash, w, slot);
    }
    if NoPutCrashes(acts) {
      forall slot
        ensures Marked(hash, w.store, slot)
      {
        if slot in w.store.addrs && MarkerFor(hash, slot, w.store.addrs[slot].cwd).Some? {
          assert Names(hash, w.store, slot, MarkerFor(hash, slot, w.store.addrs[slot].cwd).value);
        }
      }
    }
  }

  predicate OnlyPuts(acts: seq<Action>) {
    forall k | 0 <= k < |acts| :: acts[k].Publish? || acts[k].MakeDir? || acts[k].Mark?
  }

  /** With no removal at all, every interleaving of puts is orderly. */
  lemma {:induction false} PutsAloneAreOrderly(hash: Hash, acts: seq<Action>)
    requires OnlyPuts(acts)
    ensures OrderlyRun(hash, acts) && NoPutCrashes(acts) && Run(hash, acts).removals == map[]
  {
    if acts != [] {
      var before, act := acts[..|acts| - 1], acts[|acts| - 1];
      assert act.Publish? || act.MakeDir? || act.Mark?;
      assert OnlyPuts(before) by {
        forall k | 0 <= k < |before|
          ensures before[k].Publish? || before[k].MakeDir? || before[k].Mark?
        {
          assert before[k] == acts[k];
        }
      }
      PutsAloneAreOrderly(hash, before);
    }
  }

  // ---- Exactly what is there ----

  predicate Writes(w: World, act: Action, m: Marker) {
    act.Mark? && act.pid in w.puts && w.puts[act.pid] == PutCall(m, true) && Home(m) in w.store.dirs
  }

  predicate Prunes(w: World, act: Action, m: Marker) {
    && act.Prune? && act.pid in w.removals
    && w.removals[act.pid].stage == Deleted && w.removals[act.pid].prune == Some(m)
  }

  /** Of the steps that wrote or pruned the marker, the last one wrote it. */
  predicate LastWrote(hash: Hash, acts: seq<Action>, m: Marker) {
    if acts == [] then false
    else
      var before, last := acts[..|acts| - 1], acts[|acts| - 1];
      if Writes(Run(hash, before), last, m) then true
      else if Prunes(Run(hash, before), last, m) then false
      else LastWrote(hash, before, m)
  }

  lemma MarkerAfter(hash: Hash, w: World, act: Action, m: Marker)
    ensures m in Step(hash, w, act).store.markers <==> Writes(w, act, m) || (m in w.store.markers && !Prunes(w, act, m))
  {
  }

  /** Whatever races, a marker is there exactly when the last of the steps that
      write it or prune it was a write. */
  lemma {:induction false} MarkerIsThereExactly(hash: Hash, acts: seq<Action>, m: Marker)
    ensures m in Run(hash, acts).store.markers <==> LastWrote(hash, acts, m)
  {
    if acts != [] {
      MarkerIsThereExactly(hash, acts[..|acts| - 1], m);
      MarkerAfter(hash, Run(hash, acts[..|acts| - 1]), acts[|acts| - 1], m);
    }
  }

  predicate Makes(w: World, act: Action, d: Dir) {
    act.MakeDir? && act.pid in w.puts && !w.puts[act.pid].made && Home(w.puts[act.pid].marker) == d
  }

  predicate Drops(w: World, act: Action, d: Dir) {
    && act.RemoveDir? && act.pid in w.removals && w.removals[act.pid].stage == Pruned
    && w.removals[act.pid].prune.Some? && Home(w.removals[act.pid].prune.value) == d
    && IsEmpty(w.store, d)
  }

  /** Of the steps that made or removed the directory, the last one made it. */
  predicate LastMade(hash: Hash, acts: seq<Action>, d: Dir) {
    if acts == [] then false
    else
      var before, last := acts[..|acts| - 1], acts[|acts| - 1];
      if Makes(Run(hash, before), last, d) then true
      else if Drops(Run(hash, before), last, d) then false
      else LastMade(hash, before, d)
  }

  lemma DirAfter(hash: Hash, w: World, act: Action, d: Dir)
    ensures d in Step(hash, w, act).store.dirs <==> Makes(w, act, d) || (d in w.store.dirs && !Drops(w, act, d))
  {
  }

  lemma {:induction false} DirIsThereExactly(hash: Hash, acts: seq<Action>, d: Dir)
    ensures d in Run(hash, acts).store.dirs <==> LastMade(hash, acts, d)
  {
    if acts != [] {
      DirIsThereExactly(hash, acts[..|acts| - 1], d);
      DirAfter(hash, Run(hash, acts[..|acts| - 1]), acts[|acts| - 1], d);
    }
  }

  /** A put that has made its directory writes its marker exactly when that
      directory has not been removed since, or was made again; otherwise the put
      ends in an error. */
  lemma MarkSucceedsExactly(hash: Hash, acts: seq<Action>, pid: nat)
    requires pid in Run(hash, acts).puts && Run(hash, acts).puts[pid].made
    ensures var w, next := Run(hash, acts), Run(hash, acts + [Mark(pid)]);
            var m := w.puts[pid].marker;
            && next.puts == w.puts - {pid}
            && (LastMade(hash, acts, Home(m)) ==> m in next.store.markers && m !in next.broken)
            && (!LastMade(hash, acts, Home(m)) ==> next.store == w.store && m in next.broken)
  {
    DirIsThereExactly(hash, acts, Home(Run(hash, acts).puts[pid].marker));
    var next := Extend(hash, acts, Mark(pid));
  }

  /** Exactly when a racing run leaves the index complete: for every registered
      address the last step on its directory's marker was a write. */
  lemma CompleteExactly(hash: Hash, acts: seq<Action>)
    ensures var s := Run(hash, acts).store;
            Indexed(hash, s) <==>
              forall slot | slot in s.addrs && MarkerFor(hash, slot, s.addrs[slot].cwd).Some? ::
                LastWrote(hash, acts, MarkerFor(hash, slot, s.addrs[slot].cwd).value)
  {
    var s := Run(hash, acts).store;
    forall slot | slot in s.addrs && MarkerFor(hash, slot, s.addrs[slot].cwd).Some?
      ensures Marked(hash, s, slot) <==> LastWrote(hash, acts, MarkerFor(hash, slot, s.addrs[slot].cwd).value)
    {
      MarkerIsThereExactly(hash, acts, MarkerFor(hash, slot, s.addrs[slot].cwd).value);
    }
  }

  // ---- Two runs that hide a session ----

  lemma Extend(hash: Hash, acts: seq<Action>, act: Action) returns (w: World)
    ensures w == Run(hash, acts + [act]) == Step(hash, Run(hash, acts), act)
  {
    w := Run(hash, acts + [act]);
    assert (acts + [act])[..|acts|] == acts;
  }

  lemma Extend3(hash: Hash, acts: seq<Action>, a: Action, b: Action, c: Action) returns (more: seq<Action>)
    ensures more == acts + [a, b, c]
    ensures Run(hash, more) == Step(hash, Step(hash, Step(hash, Run(hash, acts), a), b), c)
  {
    var u := Extend(hash, acts, a);
    var v := Extend(hash, acts + [a], b);
    var w := Extend(hash, acts + [a] + [b], c);
    more := acts + [a, b, c];
    assert more == acts + [a] + [b] + [c];
  }

  lemma Extend2(hash: Hash, acts: seq<Action>, a: Action, b: Action) returns (more: seq<Action>)
    ensures more == acts + [a, b] && Run(hash, more) == Step(hash, Step(hash, Run(hash, acts), a), b)
  {
    var u := Extend(hash, acts, a);
    var v := Extend(hash, acts + [a], b);
    more := acts + [a, b];
    assert more == acts + [a] + [b];
  }

  /** A put from start to return. */
  lemma PutSteps(hash: Hash, w: World, pid: nat, slot: Slot, a: Address, m: Marker)
    requires MarkerFor(hash, slot, a.cwd) == Some(m) && pid !in w.puts
    ensures Step(hash, Step(hash, Step(hash, w, Publish(pid, slot, a)), MakeDir(pid)), Mark(pid))
            == World(Store(w.store.addrs[slot := a], w.store.markers + {m}, w.store.dirs + {Home(m)}),
                     w.puts, w.removals, w.broken - {m})
  {
    var made := Step(hash, Step(hash, w, Publish(pid, slot, a)), MakeDir(pid));
    assert made.puts - {pid} == w.puts;
    assert w.broken - {m} - {m} == w.broken - {m};
  }

  lemma PutFully(hash: Hash, acts: seq<Action>, pid: nat, slot: Slot, a: Address, m: Marker) returns (more: seq<Action>)
    requires MarkerFor(hash, slot, a.cwd) == Some(m) && pid !in Run(hash, acts).puts
    ensures more == acts + [Publish(pid, slot, a), MakeDir(pid), Mark(pid)]
    ensures var w, v := Run(hash, acts), Run(hash, more);
            v == World(Store(w.store.addrs[slot := a], w.store.markers + {m}, w.store.dirs + {Home(m)}),
                       w.puts, w.removals, w.broken - {m})
  {
    PutSteps(hash, Run(hash, acts), pid, slot, a, m);
    more := Extend3(hash, acts, Publish(pid, slot, a), MakeDir(pid), Mark(pid));
  }

  /** The end of a removal whose address is already removed. */
  lemma PruneSteps(hash: Hash, w: World, pid: nat, slot: Slot, m: Marker)
    requires pid in w.removals && w.removals[pid] == Removal(slot, Some(m), Deleted)
    ensures Step(hash, Step(hash, w, Prune(pid)), RemoveDir(pid))
            == w.(store := DropDir(w.store.(markers := w.store.markers - {m}), Home(m)), removals := w.removals - {pid})
  {
    assert Step(hash, w, Prune(pid)).removals - {pid} == w.removals - {pid};
  }

  lemma PruneFully(hash: Hash, acts: seq<Action>, pid: nat, slot: Slot, m: Marker) returns (more: seq<Action>)
    requires pid in Run(hash, acts).removals && Run(hash, acts).removals[pid] == Removal(slot, Some(m), Deleted)
    ensures more == acts + [Prune(pid), RemoveDir(pid)]
    ensures var w, v := Run(hash, acts), Run(hash, more);
            v == w.(store := DropDir(w.store.(markers := w.store.markers - {m}), Home(m)),
                    removals := w.removals - {pid})
  {
    PruneSteps(hash, Run(hash, acts), pid, slot, m);
    more := Extend2(hash, acts, Prune(pid), RemoveDir(pid));
  }

  lemma RemovalBegins(hash: Hash, acts: seq<Action>, pid: nat, slot: Slot, m: Marker) returns (more: seq<Action>)
    requires Names(hash, Run(hash, acts).store, slot, m) && pid !in Run(hash, acts).removals
    ensures more == acts + [ReadToRemove(pid, slot), Delete(pid)]
    ensures var w, v := Run(hash, acts), Run(hash, more);
            v == w.(store := w.store.(addrs := w.store.addrs - {slot}),
                    removals := w.removals[pid := Removal(slot, Some(m), Deleted)])
  {
    RemovalSteps(hash, Run(hash, acts), pid, slot, m);
    more := Extend2(hash, acts, ReadToRemove(pid, slot), Delete(pid));
  }

  lemma RemovalSteps(hash: Hash, w: World, pid: nat, slot: Slot, m: Marker)
    requires Names(hash, w.store, slot, m) && pid !in w.removals
    ensures Step(hash, Step(hash, w, ReadToRemove(pid, slot)), Delete(pid))
            == w.(store := w.store.(addrs := w.store.addrs - {slot}),
                  removals := w.removals[pid := Removal(slot, Some(m), Deleted)])
  {
    var read := Step(hash, w, ReadToRemove(pid, slot));
    assert read.removals == w.removals[pid := Removal(slot, Some(m), Known)];
  }

  /** A removal that overlaps a put of the same target can leave its address
      registered, unmarked, and with nothing in progress to mark it. */
  lemma RacingRemovalHides(hash: Hash, slot: Slot, a: Address) returns (acts: seq<Action>)
    requires MarkerFor(hash, slot, a.cwd).Some?
    ensures var w := Run(hash, acts);
            && w.puts == map[] && w.removals == map[] && w.broken == {}
            && slot in w.store.addrs && w.store.addrs[slot] == a
            && !Marked(hash, w.store, slot)
  {
    var m := MarkerFor(hash, slot, a.cwd).value;
    acts := PutFully(hash, [], 0, slot, a, m);
    acts := RemovalBegins(hash, acts, 1, slot, m);
    acts := PutFully(hash, acts, 2, slot, a, m);
    acts := PruneFully(hash, acts, 1, slot, m);
  }

  /** So can a removal of another target in the same index directory: it takes
      the directory away between the put's making it and writing the marker.
      The put ends in an error, and no removal of its target ever ran. */
  lemma NeighbourRemovalHides(hash: Hash, slot: Slot, a: Address, other: Slot, b: Address) returns (acts: seq<Action>)
    requires MarkerFor(hash, slot, a.cwd).Some? && MarkerFor(hash, other, b.cwd).Some? && slot != other
    requires Home(MarkerFor(hash, slot, a.cwd).value) == Home(MarkerFor(hash, other, b.cwd).value)
    ensures var w := Run(hash, acts);
            && w.puts == map[] && w.removals == map[]
            && slot in w.store.addrs && w.store.addrs[slot] == a
            && !Marked(hash, w.store, slot) && MarkerFor(hash, slot, a.cwd).value in w.broken
    ensures forall k | 0 <= k < |acts| && acts[k].ReadToRemove? :: acts[k].slot == other
    ensures NoPutCrashes(acts)
  {
    acts := NeighbourRun(hash, slot, a, other, b);
    forall k | 0 <= k < |acts|
      ensures !acts[k].CrashPut? && (acts[k].ReadToRemove? ==> acts[k].slot == other)
    {
    }
  }

  lemma NeighbourRun(hash: Hash, slot: Slot, a: Address, other: Slot, b: Address) returns (acts: seq<Action>)
    requires MarkerFor(hash, slot, a.cwd).Some? && MarkerFor(hash, other, b.cwd).Some? && slot != other
    requires Home(MarkerFor(hash, slot, a.cwd).value) == Home(MarkerFor(hash, other, b.cwd).value)
    ensures acts == [Publish(0, other, b), MakeDir(0), Mark(0), Publish(1, slot, a), MakeDir(1),
                     ReadToRemove(2, other), Delete(2), Prune(2), RemoveDir(2), Mark(1)]
    ensures var w := Run(hash, acts);
            && w.puts == map[] && w.removals == map[]
            && slot in w.store.addrs && w.store.addrs[slot] == a && w.store.markers == {}
            && MarkerFor(hash, slot, a.cwd).value in w.broken
  {
    var m, n := MarkerFor(hash, slot, a.cwd).value, MarkerFor(hash, other, b.cwd).value;
    acts := NeighbourStays(hash, slot, a, other, b, m, n);
    acts := NeighbourLeaves(hash, acts, slot, a, other, m, n);
    var v := Extend(hash, acts, Mark(1));
    MarkFails(hash, Run(hash, acts), m);
    acts := acts + [Mark(1)];
  }

  lemma MarkFails(hash: Hash, w: World, m: Marker)
    requires w.puts == map[1 := PutCall(m, true)] && w.store.dirs == {}
    ensures Step(hash, w, Mark(1)) == w.(puts := map[], broken := w.broken + {m})
  {
    assert w.puts - {1} == map[];
  }

  lemma NeighbourStays(hash: Hash, slot: Slot, a: Address, other: Slot, b: Address, m: Marker, n: Marker)
    returns (acts: seq<Action>)
    requires MarkerFor(hash, slot, a.cwd) == Some(m) && MarkerFor(hash, other, b.cwd) == Some(n)
    requires Home(m) == Home(n) && slot != other
    ensures acts == [Publish(0, other, b), MakeDir(0), Mark(0)] + [Publish(1, slot, a), MakeDir(1)]
    ensures Run(hash, acts)
            == World(Store(map[other := b][slot := a], {n}, {Home(n)}), map[1 := PutCall(m, true)], map[], {})
  {
    var first := FirstPut(hash, other, b, n);
    acts := PutHalfway(hash, first, 1, slot, a, m);
  }

  lemma FirstPut(hash: Hash, slot: Slot, a: Address, m: Marker) returns (acts: seq<Action>)
    requires MarkerFor(hash, slot, a.cwd) == Some(m)
    ensures acts == [Publish(0, slot, a), MakeDir(0), Mark(0)]
    ensures Run(hash, acts) == World(Store(map[slot := a], {m}, {Home(m)}), map[], map[], {})
  {
    acts := PutFully(hash, [], 0, slot, a, m);
    assert [] + [Publish(0, slot, a), MakeDir(0), Mark(0)] == [Publish(0, slot, a), MakeDir(0), Mark(0)];
  }

  lemma NeighbourLeaves(hash: Hash, acts: seq<Action>, slot: Slot, a: Address, other: Slot, m: Marker, n: Marker)
    returns (more: seq<Action>)
    requires var w := Run(hash, acts);
             && Names(hash, w.store, other, n) && w.store.markers == {n} && w.store.dirs == {Home(n)}
             && w.puts == map[1 := PutCall(m, true)] && w.removals == map[]
             && slot in w.store.addrs && w.store.addrs[slot] == a && slot != other
    ensures more == acts + [ReadToRemove(2, other), Delete(2)] + [Prune(2), RemoveDir(2)]
    ensures var v := Run(hash, more);
            && v.store.markers == {} && v.store.dirs == {}
            && v.puts == map[1 := PutCall(m, true)] && v.removals == map[]
            && slot in v.store.addrs && v.store.addrs[slot] == a
  {
    more := RemovalBegins(hash, acts, 2, other, n);
    more := PruneFully(hash, more, 2, other, n);
  }

  lemma PutHalfway(hash: Hash, acts: seq<Action>, pid: nat, slot: Slot, a: Address, m: Marker)
    returns (more: seq<Action>)
    requires MarkerFor(hash, slot, a.cwd) == Some(m) && pid !in Run(hash, acts).puts
    ensures more == acts + [Publish(pid, slot, a), MakeDir(pid)]
    ensures var w, v := Run(hash, acts), Run(hash, more);
            v == World(Store(w.store.addrs[slot := a], w.store.markers, w.store.dirs + {Home(m)}),
                       w.puts[pid := PutCall(m, true)], w.removals, w.broken - {m})
  {
    more := Extend2(hash, acts, Publish(pid, slot, a), MakeDir(pid));
  }
}
