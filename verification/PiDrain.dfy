/** The drain loop of the Pi extension: one thread, callbacks, and a drain that
    is suspended while a `take` runs in another process. */
module PiDrain {
  import opened Order
  import opened MailFiles

  const MAX_ITEMS_PER_DRAIN := 5

  /** A suspended call of `drain`: waiting for its take to run, or waiting to be
      resumed with what the take answered. */
  datatype Frame =
    | Taking(delivered: nat)
    | Took(delivered: nat, item: Option<Id>)

  datatype State = State(
    active: bool,
    draining: bool,
    drainAgain: bool,
    timer: bool,
    frames: seq<Frame>,
    pending: set<Id>,      // the files of pending/
    signal: bool,          // the watcher owes an event
    taken: seq<Id>,        // claimed by this runtime, in order
    injected: seq<Id>)     // sent to the session, in order

  datatype Outcome = Answers | Fails | Loses

  datatype Event =
    | Arrives(id: Id)
    | OtherTakes(id: Id)
    | WatchFires
    | Requested
    | TimerFires
    | TakeRuns(k: nat, outcome: Outcome, id: Id)
    | TakeReturns(k: nat, sends: bool)
    | Stops

  /** A runtime whose watcher was just established: it has asked for a drain. */
  predicate Started(s: State) {
    s == State(true, false, false, true, [], s.pending, s.signal, [], [])
  }

  function Request(s: State): State {
    if !s.active then s
    else if s.draining then s.(drainAgain := true)
    else s.(timer := true)
  }

  function Without<T>(s: seq<T>, k: nat): seq<T>
    requires k < |s|
  {
    s[..k] + s[k + 1..]
  }

  /** The end of a drain call, normal or not. */
  function Finish(s: State, k: nat, delivered: nat): State
    requires k < |s.frames|
  {
    var idle := s.(frames := Without(s.frames, k), draining := false, drainAgain := false);
    if s.active && (s.drainAgain || delivered == MAX_ITEMS_PER_DRAIN) then Request(idle) else idle
  }

  function BeginDrain(s: State): State {
    if !s.active || s.draining then s.(drainAgain := true)
    else s.(draining := true, frames := s.frames + [Taking(0)])
  }

  function AnswerTake(s: State, k: nat, outcome: Outcome, id: Id): State
    requires k < |s.frames|
  {
    var d := s.frames[k].delivered;
    if outcome == Fails || s.pending == {} then s.(frames := s.frames[k := Took(d, None)])
    else if id !in s.pending then s
    else
      s.(frames := s.frames[k := Took(d, if outcome == Loses then None else Some(id))],
         pending := s.pending - {id}, taken := s.taken + [id])
  }

  function Resume(s: State, k: nat, sends: bool): State
    requires k < |s.frames| && s.frames[k].Took?
  {
    var f := s.frames[k];
    if f.item == None || !s.active || !sends then Finish(s, k, f.delivered)
    else
      var sent := s.(injected := s.injected + [f.item.value]);
      if f.delivered + 1 < MAX_ITEMS_PER_DRAIN then sent.(frames := s.frames[k := Taking(f.delivered + 1)])
      else Finish(sent, k, f.delivered + 1)
  }

  /** One turn of the event loop or one step of the world outside. An event that
      cannot happen changes nothing. */
  function Step(s: State, e: Event): State {
    match e
    case Arrives(id) =>
      if id in s.pending || id in s.taken then s else s.(pending := s.pending + {id}, signal := true)
    case OtherTakes(id) => s.(pending := s.pending - {id})
    case WatchFires => if s.signal then Request(s.(signal := false)) else s
    case Requested => Request(s)
    case TimerFires => if s.timer then BeginDrain(s.(timer := false)) else s
    case TakeRuns(k, outcome, id) => if k < |s.frames| && s.frames[k].Taking? then AnswerTake(s, k, outcome, id) else s
    case TakeReturns(k, sends) => if k < |s.frames| && s.frames[k].Took? then Resume(s, k, sends) else s
    case Stops => s.(active := false, timer := false)
  }

  function Run(s: State, events: seq<Event>): State {
    if events == [] then s else Step(Run(s, events[..|events| - 1]), events[|events| - 1])
  }

  // ---- Every run ----

  /** At most one drain, never beside a timer, and never over the cap. */
  predicate WellRun(s: State) {
    && |s.frames| <= 1
    && (s.draining <==> s.frames != [])
    && (s.timer ==> s.active && s.frames == [])
    && (s.drainAgain ==> s.draining)
    && (forall k | 0 <= k < |s.frames| :: s.frames[k].delivered < 5)
  }

  lemma StepIsWellRun(s: State, e: Event)
    requires WellRun(s)
    ensures WellRun(Step(s, e))
  {
  }

  lemma {:induction false} RunIsWellRun(s: State, events: seq<Event>)
    requires WellRun(s)
    ensures WellRun(Run(s, events))
  {
    if events != [] {
      RunIsWellRun(s, events[..|events| - 1]);
      StepIsWellRun(Run(s, events[..|events| - 1]), events[|events| - 1]);
    }
  }

  /** Whatever takes and sends do: one drain at a time, no drain beside a timer. */
  lemma OneDrainAtATime(s: State, events: seq<Event>)
    requires Started(s)
    ensures |Run(s, events).frames| <= 1
    ensures !(Run(s, events).timer && Run(s, events).frames != [])
  {
    RunIsWellRun(s, events);
  }

  /** After a stop nothing is injected and no timer is set, ever; a take that
      was under way may still claim one item. */
  lemma {:induction false} NothingAfterStop(s: State, events: seq<Event>)
    requires WellRun(s) && !s.active
    ensures var end := Run(s, events);
            && end.injected == s.injected && !end.active && !end.timer
            && |end.taken| + TakesUnderWay(end) <= |s.taken| + TakesUnderWay(s)
  {
    if events != [] {
      var before := events[..|events| - 1];
      NothingAfterStop(s, before);
      RunIsWellRun(s, before);
      StoppedStep(Run(s, before), events[|events| - 1]);
    }
  }

  lemma StoppedStep(s: State, e: Event)
    requires WellRun(s) && !s.active
    ensures var next := Step(s, e);
            next.injected == s.injected && !next.active && !next.timer
              && |next.taken| + TakesUnderWay(next) <= |s.taken| + TakesUnderWay(s)
  {
  }

  function TakesUnderWay(s: State): nat {
    if |s.frames| == 1 && s.frames[0].Taking? then 1 else 0
  }

  // ---- No message is injected twice ----

  /** The item a drain has been given and not sent yet. */
  function InHand(s: State): seq<Id> {
    if |s.frames| == 1 && s.frames[0].Took? && s.frames[0].item.Some? then [s.frames[0].item.value] else []
  }

  function Flow(s: State): seq<Id> { s.injected + InHand(s) }

  /** Injected items were taken, each once, and taken items are gone from
      pending. */
  ghost predicate SentOnce(s: State) {
    && Distinct(Flow(s))
    && (forall id | id in Flow(s) :: id in s.taken)
    && (forall id | id in s.taken :: id !in s.pending)
  }

  /** What a step does to the items on their way. */
  lemma FlowStep(s: State, e: Event)
    requires WellRun(s)
    ensures var next := Step(s, e);
            || (Flow(next) == Flow(s) && next.taken == s.taken)
            || (Flow(next) == s.injected && next.taken == s.taken && (!s.active || (e.TakeReturns? && !e.sends)))
            || (e.TakeRuns? && e.id in s.pending && next.taken == s.taken + [e.id] && e.id !in next.pending
                && (Flow(next) == Flow(s) + [e.id] || (Flow(next) == Flow(s) && e.outcome == Loses)))
    ensures forall id | id in Step(s, e).pending :: id in s.pending || id !in s.taken
  {
    if e.TakeReturns? && e.k < |s.frames| && s.frames[e.k].Took? { ResumeFlow(s, e.k, e.sends); }
  }

  lemma ResumeFlow(s: State, k: nat, sends: bool)
    requires WellRun(s) && k < |s.frames| && s.frames[k].Took?
    ensures var next := Resume(s, k, sends);
            && next.taken == s.taken && next.pending == s.pending
            && Flow(next) == (if s.active && sends then Flow(s) else s.injected)
  {
  }

  lemma StepSendsOnce(s: State, e: Event)
    requires WellRun(s) && SentOnce(s)
    ensures SentOnce(Step(s, e))
  {
    FlowStep(s, e);
    var next := Step(s, e);
    assert forall i | 0 <= i < |s.injected| :: Flow(s)[i] == s.injected[i];
    forall id | id in next.taken
      ensures id !in next.pending
    {
    }
  }

  /** In every run, with any failures, no id is injected twice, and only ids
      this runtime claimed are injected. */
  lemma {:induction false} InjectedAtMostOnce(s: State, events: seq<Event>)
    requires Started(s)
    ensures WellRun(Run(s, events)) && SentOnce(Run(s, events))
    ensures Distinct(Run(s, events).injected)
  {
    RunIsWellRun(s, events);
    if events != [] {
      InjectedAtMostOnce(s, events[..|events| - 1]);
      StepSendsOnce(Run(s, events[..|events| - 1]), events[|events| - 1]);
    }
    var end := Run(s, events);
    assert forall i | 0 <= i < |end.injected| :: Flow(end)[i] == end.injected[i];
  }

  // ---- Messages are injected in the order they were claimed ----

  /** What is left of a sequence when some of its elements are dropped. */
  predicate Subsequence(a: seq<Id>, b: seq<Id>) {
    if a == [] then true
    else if b == [] then false
    else
      || (a[|a| - 1] == b[|b| - 1] && Subsequence(a[..|a| - 1], b[..|b| - 1]))
      || Subsequence(a, b[..|b| - 1])
  }

  lemma {:induction false} SubsequenceFront(a: seq<Id>, b: seq<Id>)
    requires a != [] && Subsequence(a, b)
    ensures Subsequence(a[..|a| - 1], b)
  {
    var front := a[..|a| - 1];
    if front != [] && b != [] {
      if a[|a| - 1] == b[|b| - 1] && Subsequence(front, b[..|b| - 1]) {
      } else {
        SubsequenceFront(a, b[..|b| - 1]);
      }
    }
  }

  lemma SubsequenceGrows(a: seq<Id>, b: seq<Id>, id: Id)
    requires Subsequence(a, b)
    ensures Subsequence(a, b + [id]) && Subsequence(a + [id], b + [id])
  {
    assert (b + [id])[..|b|] == b && (a + [id])[..|a|] == a;
  }

  lemma StepKeepsOrder(s: State, e: Event)
    requires WellRun(s) && Subsequence(Flow(s), s.taken)
    ensures Subsequence(Flow(Step(s, e)), Step(s, e).taken)
  {
    FlowStep(s, e);
    var next := Step(s, e);
    InjectedIsPart(s);
    if e.TakeRuns? && next.taken == s.taken + [e.id] { SubsequenceGrows(Flow(s), s.taken, e.id); }
  }

  lemma InjectedIsPart(s: State)
    requires Subsequence(Flow(s), s.taken)
    ensures Subsequence(s.injected, s.taken)
  {
    if InHand(s) == [] {
      assert Flow(s) == s.injected;
    } else {
      assert Flow(s)[..|Flow(s)| - 1] == s.injected;
      SubsequenceFront(Flow(s), s.taken);
    }
  }

  /** Whatever takes and sends do, what is injected keeps the order in which it
      was claimed. */
  lemma {:induction false} InjectedInOrder(s: State, events: seq<Event>)
    requires Started(s)
    ensures Subsequence(Flow(Run(s, events)), Run(s, events).taken)
    ensures Subsequence(Run(s, events).injected, Run(s, events).taken)
  {
    RunIsWellRun(s, events);
    if events != [] {
      InjectedInOrder(s, events[..|events| - 1]);
      RunIsWellRun(s, events[..|events| - 1]);
      StepKeepsOrder(Run(s, events[..|events| - 1]), events[|events| - 1]);
    }
    InjectedIsPart(Run(s, events));
  }

  // ---- No signal is lost ----

  /** Takes find what is there and sends succeed. */
  predicate Reliable(e: Event) {
    && (e.TakeRuns? ==> e.outcome == Answers)
    && (e.TakeReturns? ==> e.sends)
  }

  /** While anything is pending, something is on its way that will look: a
      timer, an event of the watcher, a take that has not run, or a drain that
      will go round again. */
  predicate Attended(s: State) {
    s.active && s.pending != {} ==>
      || s.timer
      || s.signal
      || (s.frames != [] && (s.frames[0].Taking? || s.frames[0].item.Some? || s.drainAgain))
  }

  lemma StepStaysAttended(s: State, e: Event)
    requires WellRun(s) && Attended(s) && Reliable(e)
    ensures Attended(Step(s, e))
  {
  }

  /** A request covers whatever is pending, whatever failed before it. */
  lemma RequestAttends(s: State)
    requires WellRun(s)
    ensures Attended(Request(s))
  {
  }

  predicate AllReliable(events: seq<Event>) {
    forall k | 0 <= k < |events| :: Reliable(events[k])
  }

  lemma {:induction false} RunStaysAttended(s: State, events: seq<Event>)
    requires WellRun(s) && Attended(s) && AllReliable(events)
    ensures Attended(Run(s, events))
  {
    if events != [] {
      var before := events[..|events| - 1];
      RunStaysAttended(s, before);
      RunIsWellRun(s, before);
      assert Reliable(events[|events| - 1]);
      StepStaysAttended(Run(s, before), events[|events| - 1]);
    }
  }

  /** Nothing is running, set or owed. */
  predicate Quiescent(s: State) {
    s.active && !s.timer && !s.signal && s.frames == []
  }

  /** No signal is lost: with reliable takes and sends, an active runtime at
      rest has nothing pending, however arrivals, events, takes and other
      consumers interleave and although each drain stops after five items. */
  lemma NoSignalIsLost(s: State, events: seq<Event>)
    requires Started(s) && AllReliable(events)
    ensures Quiescent(Run(s, events)) ==> Run(s, events).pending == {}
  {
    RunStaysAttended(s, events);
  }

  lemma {:induction false} RunAppend(s: State, a: seq<Event>, b: seq<Event>)
    ensures Run(s, a + b) == Run(Run(s, a), b)
  {
    if b == [] {
      assert a + b == a;
    } else {
      RunAppend(s, a, b[..|b| - 1]);
      assert (a + b)[..|a + b| - 1] == a + b[..|b| - 1];
    }
  }

  /** Failed takes and sends are repaired by any later request for a drain. */
  lemma RequestRepairs(s: State, failing: seq<Event>, after: seq<Event>)
    requires Started(s) && AllReliable(after)
    ensures var end := Run(s, failing + [Requested] + after);
            Quiescent(end) ==> end.pending == {}
  {
    RunIsWellRun(s, failing);
    RunAppend(s, failing, [Requested]);
    RunAppend(s, failing + [Requested], after);
    var mid := Run(s, failing);
    assert Run(mid, [Requested]) == Request(mid);
    RequestAttends(mid);
    StepIsWellRun(mid, Requested);
    RunStaysAttended(Request(mid), after);
  }

  /** The step that leaves pending items with nothing on its way to look at
      them. */
  predicate Strands(s: State, e: Event) {
    && s.active && !s.signal && !s.drainAgain && s.frames != []
    && match e
       case TakeRuns(k, outcome, id) =>
         && k == 0 && s.frames[0].Taking?
         && ((outcome == Fails && s.pending != {}) || (outcome == Loses && id in s.pending && s.pending != {id}))
       case TakeReturns(k, sends) =>
         k == 0 && s.frames[0].Took? && s.frames[0].item.Some? && !sends && s.pending != {}
       case _ => false
  }

  /** Exactly the failing takes and sends of a drain that nothing else backs up
      lose sight of pending items. */
  lemma StrandsExactly(s: State, e: Event)
    requires WellRun(s) && Attended(s)
    ensures Attended(Step(s, e)) <==> !Strands(s, e)
  {
    if e.TakeRuns? && e.outcome == Loses && e.id in s.pending {
      assert s.pending - {e.id} == {} <==> s.pending == {e.id};
    }
  }

  /** Without such a request a failed take can strand what is pending. */
  lemma FailedTakeStrands(s: State)
    requires Started(s) && s.pending != {} && !s.signal
    ensures var end := Run(s, [TimerFires, TakeRuns(0, Fails, ""), TakeReturns(0, true)]);
            Quiescent(end) && end.pending == s.pending
  {
    var e1, e2, e3 := TimerFires, TakeRuns(0, Fails, ""), TakeReturns(0, true);
    RunAppend(s, [e1, e2], [e3]);
    RunAppend(s, [e1], [e2]);
    assert [e1, e2] + [e3] == [e1, e2, e3] && [e1] + [e2] == [e1, e2];
  }

  // ---- Everything pending is delivered ----

  /** The steps the runtime and its takes owe, as opposed to arrivals, requests
      and other consumers. */
  predicate Works(s: State, e: Event) {
    match e
    case WatchFires => s.signal
    case TimerFires => s.timer
    case TakeRuns(k, outcome, id) =>
      k == 0 && s.frames != [] && s.frames[0].Taking? && outcome == Answers && (s.pending == {} || id in s.pending)
    case TakeReturns(k, sends) => k == 0 && s.frames != [] && s.frames[0].Took? && sends
    case _ => false
  }

  function Rank(s: State): nat {
    3 * |s.pending|
    + (if s.signal then 4 else 0)
    + (if s.timer then 3 else 0)
    + (if s.drainAgain then 3 else 0)
    + (if s.frames == [] then 0 else if s.frames[0].Taking? then 2 else if s.frames[0].item.Some? then 4 else 1)
  }

  lemma WorkLowersRank(s: State, e: Event)
    requires WellRun(s) && s.active && Works(s, e)
    ensures Rank(Step(s, e)) < Rank(s) && Step(s, e).active && Reliable(e)
    ensures Flow(s) == s.taken ==> Flow(Step(s, e)) == Step(s, e).taken
    ensures s.pending <= Step(s, e).pending + (set id | id in Step(s, e).taken)
    ensures forall id | id in s.taken :: id in Step(s, e).taken
  {
    FlowStep(s, e);
    if e.TakeRuns? && s.pending != {} {
      assert |s.pending - {e.id}| == |s.pending| - 1;
    }
  }

  predicate AllWork(s: State, events: seq<Event>) {
    forall k | 0 <= k < |events| :: Works(Run(s, events[..k]), events[k])
  }

  lemma {:induction false} WorkDelivers(s: State, events: seq<Event>)
    requires WellRun(s) && s.active && Attended(s) && Flow(s) == s.taken && AllWork(s, events)
    ensures var end := Run(s, events);
            && WellRun(end) && end.active && Attended(end)
            && |events| + Rank(end) <= Rank(s)
            && Flow(end) == end.taken
            && s.pending <= end.pending + (set id | id in end.taken)
  {
    if events != [] {
      var before, e := events[..|events| - 1], events[|events| - 1];
      assert AllWork(s, before) by {
        forall k | 0 <= k < |before|
          ensures Works(Run(s, before[..k]), before[k])
        {
          assert before[..k] == events[..k] && Works(Run(s, events[..k]), events[k]);
        }
      }
      WorkDelivers(s, before);
      var mid := Run(s, before);
      assert Works(mid, e);
      WorkLowersRank(mid, e);
      StepIsWellRun(mid, e);
      StepStaysAttended(mid, e);
    }
  }

  /** Once arrivals and requests cease, a bounded number of steps is left, in
      whatever order they come; when none is left, everything that was pending
      has been injected. */
  lemma EverythingIsDelivered(s: State, events: seq<Event>)
    requires WellRun(s) && s.active && Attended(s) && Flow(s) == s.taken && AllWork(s, events)
    ensures |events| <= Rank(s)
    ensures (forall e :: !Works(Run(s, events), e)) ==>
              && Run(s, events).pending == {}
              && forall id | id in s.pending :: id in Run(s, events).injected
  {
    WorkDelivers(s, events);
    var end := Run(s, events);
    if forall e :: !Works(end, e) {
      NoWorkLeft(end);
      assert InHand(end) == [];
    }
  }

  /** A runtime with no step left is at rest. */
  lemma NoWorkLeft(s: State)
    requires WellRun(s) && s.active && forall e :: !Works(s, e)
    ensures Quiescent(s)
  {
    assert !Works(s, WatchFires) && !Works(s, TimerFires);
    assert !Works(s, TakeReturns(0, true));
    if s.pending == {} {
      assert !Works(s, TakeRuns(0, Answers, ""));
    } else {
      var id :| id in s.pending;
      assert !Works(s, TakeRuns(0, Answers, id));
    }
  }

  // ---- The program ----

  /** The extension's runtime, with what it acts on. */
  class Runtime {
    var active: bool
    var draining: bool
    var drainAgain: bool
    var drainTimer: bool
    var frames: seq<Frame>
    var pending: set<Id>
    var signal: bool
    var taken: seq<Id>
    var injected: seq<Id>

    ghost function View(): State
      reads this
    {
      State(active, draining, drainAgain, drainTimer, frames, pending, signal, taken, injected)
    }

    /** Establishing the watcher requests the first drain. */
    constructor (pending: set<Id>)
      ensures Started(View()) && View().pending == pending && WellRun(View())
    {
      active, draining, drainAgain, drainTimer := true, false, false, false;
      frames, this.pending, signal, taken, injected := [], pending, false, [], [];
      new;
      RequestDrain();
    }

    method RequestDrain()
      modifies this`drainAgain, this`drainTimer
      ensures View() == Request(old(View()))
      ensures WellRun(old(View())) ==> WellRun(View()) && Attended(View())
      ensures !active ==> View() == old(View())
      ensures active ==> if draining then drainAgain && drainTimer == old(drainTimer)
                         else drainTimer && drainAgain == old(drainAgain)
      ensures pending == old(pending) && injected == old(injected)
    {
      if !active { return; }
      if draining {
        drainAgain := true;
        return;
      }
      if drainTimer { return; }
      drainTimer := true;
    }

    /** The timer's callback, up to the first wait of the drain it starts. */
    method FireTimer()
      requires drainTimer
      modifies this
      ensures View() == Step(old(View()), TimerFires)
      ensures !drainTimer && injected == old(injected) && taken == old(taken)
      ensures if active && !old(draining) then draining && frames == old(frames) + [Taking(0)]
              else drainAgain && frames == old(frames)
      ensures WellRun(old(View())) ==> WellRun(View())
    {
      drainTimer := false;
      if !active || draining {
        drainAgain := true;
        return;
      }
      draining := true;
      frames := frames + [Taking(0)];
    }

    /** The `take --next` of a suspended drain runs. */
    method RunTake(k: nat, outcome: Outcome, id: Id)
      requires k < |frames| && frames[k].Taking? && (pending == {} || id in pending)
      modifies this
      ensures View() == Step(old(View()), TakeRuns(k, outcome, id))
      ensures WellRun(old(View())) ==> WellRun(View())
      ensures WellRun(old(View())) && Attended(old(View())) && outcome == Answers ==> Attended(View())
      ensures injected == old(injected) && draining == old(draining)
      ensures var found := outcome != Fails && old(pending) != {};
              && pending == (if found then old(pending) - {id} else old(pending))
              && taken == (if found then old(taken) + [id] else old(taken))
              && frames == old(frames)[k := Took(old(frames)[k].delivered,
                                               if found && outcome == Answers then Some(id) else None)]
    {
      var delivered := frames[k].delivered;
      if outcome == Fails || pending == {} {
        frames := frames[k := Took(delivered, None)];
        return;
      }
      pending, taken := pending - {id}, taken + [id];
      frames := frames[k := Took(delivered, if outcome == Loses then None else Some(id))];
    }

    /** A suspended drain is resumed with the answer of its take. */
    method ResumeDrain(k: nat, sends: bool)
      requires k < |frames| && frames[k].Took?
      modifies this
      ensures View() == Step(old(View()), TakeReturns(k, sends))
      ensures WellRun(old(View())) ==> WellRun(View())
      ensures active == old(active) && pending == old(pending) && taken == old(taken)
      ensures var f := old(frames)[k];
              if f.item.Some? && active && sends then
                && injected == old(injected) + [f.item.value]
                && if f.delivered < 4 then
                     && frames == old(frames)[k := Taking(f.delivered + 1)] && draining == old(draining)
                     && drainAgain == old(drainAgain) && drainTimer == old(drainTimer)
                   else
                     && frames == Without(old(frames), k) && !draining && !drainAgain
                     && drainTimer == (old(drainTimer) || old(drainAgain) || f.delivered == 4)
              else
                && injected == old(injected) && frames == Without(old(frames), k) && !draining && !drainAgain
                && drainTimer == (old(drainTimer) || (active && (old(drainAgain) || f.delivered == 5)))
    {
      var item, delivered := frames[k].item, frames[k].delivered;
      if item.Some? && active && sends {
        injected := injected + [item.value];
        delivered := delivered + 1;
        if delivered < MAX_ITEMS_PER_DRAIN {
          frames := frames[k := Taking(delivered)];
          return;
        }
      }
      frames := Without(frames, k);
      draining := false;
      var again := drainAgain;
      drainAgain := false;
      if active && (again || delivered == MAX_ITEMS_PER_DRAIN) { RequestDrain(); }
    }

    method StopRuntime()
      modifies this
      ensures View() == Step(old(View()), Stops)
      ensures !active && !drainTimer && injected == old(injected) && taken == old(taken)
      ensures WellRun(old(View())) ==> WellRun(View())
    {
      active := false;
      if drainTimer { drainTimer := false; }
    }
  }
}
