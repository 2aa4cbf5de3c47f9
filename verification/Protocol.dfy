/** One mailbox shared by any number of processes, as a transition system.

    Every step is one atomic operation on the target directory: one rename, one
    directory scan, one file read, one ledger write, taking or dropping the
    lock, one host call, a crash, or a tick of the clock. Processes interleave
    freely; only the operations between Lock and Return of Notify and Receive
    exclude each other. */
module Protocol {
  import opened Order
  import opened MailFiles
  import opened Ledgers

  type Pid = nat

  datatype Call =
    | Notify(item: Id)
    | Receive(notice: Option<NoticeId>, limit: int)
    | Take(id: Id)
    | TakeNext
    | Ack(id: Id)

  /** The next operation of a running call. */
  datatype Pc =
    | Lock | ReadLedger | Scan | ReadItem
    | ProbeClaimed | ProbeDone | ReadAddress | Choose
    | WriteAbsorbed | WriteSubmitting | CallHost | WriteReceipt
    | WriteObserved | Rename | ReadBody | WriteClosed
    | AckClaimed | AckPending
    | Return

  datatype Outcome = Ok | NotFound | Empty | Busy | OtherError

  /** A running call: its locals and the operation it does next. `base` is
      history: the ids published when it scanned pending/. `missed` is history
      too: the readable items whose read failed in its listing. */
  datatype Proc = Proc(
    call: Call,
    pc: Pc,
    st: Ledger,
    todo: seq<Id>,
    ids: seq<Id>,
    base: set<Id>,
    missed: set<Id>,
    compatible: bool,
    now: int,
    cur: Id,
    got: seq<Item>,
    outcome: Outcome)
  {
    function Done(o: Outcome): Proc { this.(pc := Pc.Return, outcome := o) }
  }

  function Begun(call: Call): Proc {
    var pc := match call
      case Notify(_) => Pc.Lock
      case Receive(_, _) => Pc.Lock
      case Take(_) => Pc.Rename
      case TakeNext => Pc.Scan
      case Ack(_) => Pc.AckClaimed;
    var todo := if call.Take? then [call.id] else [];
    Proc(call, pc, NO_LEDGER, todo, [], {}, {}, false, 0, "", [], Ok)
  }

  /** One host call: the identity and request it carried, the readable items
      its listing failed to read, when its reservation was stamped and when it
      was made, whether a definite result was persisted for it, and whether a
      receiver observed its identity while it was the latest. */
  datatype Submission = Submission(
    id: NoticeId, item: Id, ids: seq<Id>, skipped: set<Id>, stamp: int, at: int, settled: bool, seen: bool)

  /** What happened so far. Nothing here is stored by the program. `overlooked`
      is what the listing of the call that last closed a flight missed, and
      `drains` the listing times of accepted non-empty drains. */
  datatype History = History(
    pushed: map<Id, File>,
    pids: set<Pid>,
    nonces: set<nat>,
    owner: map<Id, Pid>,
    returned: seq<Item>,
    acked: seq<Id>,
    notified: set<Id>,
    handed: seq<Submission>,
    observed: set<NoticeId>,
    recorded: set<NoticeId>,
    overlooked: set<Id>,
    drains: seq<int>,
    flights: nat,
    accepts: nat,
    closes: nat,
    expiries: nat)

  datatype World = World(
    files: Files,
    ledger: Ledger,
    address: Option<int>,
    clock: int,
    lock: Option<Pid>,
    procs: map<Pid, Proc>,
    hist: History)
  {
    function Set(pid: Pid, p: Proc): World { this.(procs := procs[pid := p]) }
  }

  const NO_HISTORY := History(map[], {}, {}, map[], [], [], {}, [], {}, {}, {}, [], 0, 0, 0, 0)

  /** An empty mailbox nobody uses yet. */
  ghost predicate Init(w: World) {
    && w.files == EMPTY_FILES
    && w.ledger == NO_LEDGER
    && w.lock == None
    && w.procs == map[]
    && w.hist == NO_HISTORY
  }

  /** How the environment resolves a step: whether the operation fails or the
      call is cancelled, the random identity drawn, the host's answer. */
  datatype Choice = Choice(fail: bool, nonce: nat, answer: Answer)

  datatype Action =
    | Push(id: Id, file: File)
    | Start(pid: Pid, call: Call)
    | Advance(pid: Pid, choice: Choice)
    | Crash(pid: Pid)
    | Tick(to: int)
    | Register(protocol: Option<int>)

  datatype SaveKind = Absorbing | Starting | Settling | Observing | Closing

  /** What one step of a call does to the shared state. */
  datatype Effect =
    | Nothing
    | Acquire
    | Draw(nonce: nat)
    | Save(ledger: Ledger, kind: SaveKind)
    | Claim(id: Id)
    | Finish(id: Id)
    | Hand(sub: Submission)
    | Leave

  function ToItem(id: Id, file: File): Item
    requires file.Good?
  {
    Item(id, file.text)
  }

  function AfterScan(p: Proc, names: seq<Id>, published: set<Id>): Proc {
    if !p.call.TakeNext? then p.(todo := names, ids := [], base := published, missed := {}, pc := ReadItem)
    else if names == [] then p.Done(Empty)
    else p.(todo := names, pc := Rename)
  }

  /** A listing leaves out the files it cannot read, for whatever reason. */
  function AfterRead(p: Proc, readable: bool, fail: bool): Proc
    requires p.todo != []
  {
    var id, rest := p.todo[0], p.(todo := p.todo[1..]);
    if !readable then rest
    else if fail then rest.(missed := p.missed + {id})
    else rest.(ids := p.ids + [id])
  }

  function AfterListing(p: Proc, clock: int): Proc {
    if p.call.Notify? then
      p.(pc := if p.call.item in p.ids then ReadAddress else ProbeClaimed)
    else
      p.(todo := p.ids, now := clock,
         pc := if p.call.Receive? && p.call.notice.Some? then WriteObserved else Rename)
  }

  function PlanProbe(p: Proc, dir: map<Id, File>, missing: Proc): Proc
    requires p.call.Notify?
  {
    if p.call.item !in dir then missing
    else if dir[p.call.item].Good? then p.Done(Ok)
    else p.Done(OtherError)
  }

  function PlanChoice(w: World, p: Proc, c: Choice): (Proc, Effect)
    requires p.call.Notify?
  {
    match Decide(p.st, p.call.item, p.compatible, w.clock)
    case Absorb => (p.(st := p.st.(notified := p.ids), now := w.clock, pc := WriteAbsorbed), Nothing)
    case Known => (p.Done(Ok), Nothing)
    case InProgress => (p.Done(Busy), Nothing)
    case Submit =>
      if c.fail then (p.Done(OtherError), Nothing)
      else (p.(st := Begin(p.st, p.compatible, p.ids, w.clock, c.nonce), now := w.clock, pc := WriteSubmitting),
        Draw(c.nonce))
  }

  function PlanHost(clock: int, p: Proc, c: Choice): (Proc, Effect)
    requires p.call.Notify? && p.st.id.Some?
  {
    var sub := Submission(p.st.id.value, p.call.item, p.ids, p.missed, p.st.generatedAt, clock, false, false);
    if c.answer == AnsInvalid then (p.Done(OtherError), Hand(sub))
    else
      (p.(st := Settle(p.st, p.compatible, p.ids, c.answer), pc := WriteReceipt,
          outcome := if Accepted(c.answer) then Ok else OtherError), Hand(sub))
  }

  /** The claim loop of Take, TakeNext and Receive, before its next rename. */
  function PlanRename(w: World, p: Proc, c: Choice): (Proc, Effect) {
    if p.todo == [] || (p.call.Receive? && |p.got| == Limit(p.call.limit)) then
      if p.call.TakeNext? then (p.(pc := Scan), Nothing)
      else if p.call.Receive? && p.call.notice.Some? && p.got == [] && p.st.phase != Received then
        (p.(st := Close(p.st, p.now), pc := WriteClosed), Nothing)
      else (p.Done(Ok), Nothing)
    else if c.fail then (p.Done(OtherError), Nothing)
    else if p.todo[0] in w.files.pending then
      (p.(cur := p.todo[0], todo := p.todo[1..], pc := ReadBody), Claim(p.todo[0]))
    else if p.call.Take? then (p.Done(NotFound), Nothing)
    else (p.(todo := p.todo[1..]), Nothing)
  }

  function PlanBody(w: World, p: Proc, c: Choice): Proc {
    if c.fail then p.Done(OtherError)
    else if p.cur in w.files.claimed then
      if w.files.claimed[p.cur].Good? then
        var more := p.(got := p.got + [ToItem(p.cur, w.files.claimed[p.cur])]);
        if p.call.Receive? then more.(pc := Rename) else more.Done(Ok)
      else p.Done(OtherError)
    else if p.call.Take? then p.Done(NotFound)
    else p.(pc := Rename)
  }

  /** Taking the lock, reading the ledger and listing pending/. */
  ghost function PlanListing(w: World, p: Proc, c: Choice): (Proc, Effect)
    requires Listing(p.pc)
  {
    match p.pc
    case Lock =>
      if c.fail then (p.Done(OtherError), Nothing)
      else (p.(pc := if p.call.Receive? && p.call.notice.None? then Scan else ReadLedger), Acquire)
    case ReadLedger =>
      if c.fail then (p.Done(OtherError), Nothing)
      else if p.call.Receive? && p.call.notice.Some? && !Accepts(w.ledger, p.call.notice.value) then
        (p.Done(Ok), Nothing)
      else (p.(st := w.ledger, pc := Scan), Nothing)
    case Scan =>
      (if c.fail then p.Done(OtherError) else AfterScan(p, Sorted(w.files.pending.Keys), w.hist.pushed.Keys), Nothing)
    case ReadItem =>
      (if p.todo == [] then AfterListing(p, w.clock) else AfterRead(p, w.files.Readable(p.todo[0]), c.fail), Nothing)
  }

  /** What a notify does once it has listed pending/. */
  function PlanNotify(w: World, p: Proc, c: Choice): (Proc, Effect)
    requires Notifying(p.pc) && p.call.Notify? && (p.pc == CallHost ==> p.st.id.Some?)
  {
    match p.pc
    case Choose => PlanChoice(w, p, c)
    case CallHost => PlanHost(w.clock, p, c)
    case ProbeClaimed =>
      (if c.fail then p.Done(OtherError) else PlanProbe(p, w.files.claimed, p.(pc := ProbeDone)), Nothing)
    case ProbeDone =>
      (if c.fail then p.Done(OtherError) else PlanProbe(p, w.files.done, p.Done(NotFound)), Nothing)
    case ReadAddress =>
      if c.fail then (p.Done(OtherError), Nothing)
      else (p.(compatible := w.address == Some(WAKE_PROTOCOL), pc := Choose), Nothing)
    case WriteAbsorbed =>
      if c.fail then (p.Done(OtherError), Nothing) else (p.Done(Ok), Save(p.st, Absorbing))
    case WriteSubmitting =>
      if c.fail then (p.Done(OtherError), Nothing) else (p.(pc := CallHost), Save(p.st, Starting))
    case WriteReceipt =>
      if c.fail then (p.Done(OtherError), Nothing) else (p.Done(p.outcome), Save(p.st, Settling))
  }

  /** Observing and closing a flight, and claiming bodies. */
  function PlanClaiming(w: World, p: Proc, c: Choice): (Proc, Effect)
    requires Claiming(p.pc)
  {
    match p.pc
    case WriteObserved =>
      if c.fail then (p.Done(OtherError), Nothing)
      else
        var l := Observe(p.st, p.ids == [], p.now);
        (p.(st := l, pc := Rename), Save(l, Observing))
    case Rename => PlanRename(w, p, c)
    case ReadBody => (PlanBody(w, p, c), Nothing)
    case WriteClosed =>
      if c.fail then (p.Done(OtherError), Nothing) else (p.Done(Ok), Save(p.st, Closing))
  }

  function PlanAck(w: World, p: Proc, c: Choice): (Proc, Effect)
    requires p.call.Ack? && (p.pc == AckClaimed || p.pc == AckPending)
  {
    if c.fail then (p.Done(OtherError), Nothing)
    else if p.pc == AckClaimed then
      if p.call.id in w.files.claimed then (p.Done(Ok), Finish(p.call.id))
      else (p.(pc := AckPending), Nothing)
    else
      if p.call.id in w.files.pending then (p.Done(Ok), Finish(p.call.id))
      else (p.Done(NotFound), Nothing)
  }

  predicate Listing(pc: Pc) { pc == Lock || pc == ReadLedger || pc == Scan || pc == ReadItem }

  predicate Notifying(pc: Pc) {
    || pc == ProbeClaimed || pc == ProbeDone || pc == ReadAddress || pc == Choose
    || pc == WriteAbsorbed || pc == WriteSubmitting || pc == CallHost || pc == WriteReceipt
  }

  predicate Claiming(pc: Pc) { pc == WriteObserved || pc == Rename || pc == ReadBody || pc == WriteClosed }

  /** The next operation of a call that holds locals p. */
  ghost function Plan(w: World, p: Proc, c: Choice): (Proc, Effect)
    requires Shaped(p)
  {
    if Listing(p.pc) then PlanListing(w, p, c)
    else if Notifying(p.pc) then PlanNotify(w, p, c)
    else if Claiming(p.pc) then PlanClaiming(w, p, c)
    else if p.pc == Return then (p, Leave)
    else PlanAck(w, p, c)
  }

  /** Which calls reach which operations. */
  predicate Shaped(p: Proc) {
    match p.pc
    case Lock | ReadLedger | ReadItem => p.call.Notify? || p.call.Receive?
    case Scan => p.call.Notify? || p.call.Receive? || p.call.TakeNext?
    case ProbeClaimed | ProbeDone | ReadAddress | Choose => p.call.Notify?
    case WriteAbsorbed => p.call.Notify?
    case WriteSubmitting | CallHost | WriteReceipt => p.call.Notify? && p.st.id.Some?
    case WriteObserved | WriteClosed => p.call.Receive? && p.call.notice.Some? && p.st.id.Some?
    case Rename | ReadBody => p.call.Receive? || p.call.Take? || p.call.TakeNext?
    case AckClaimed | AckPending => p.call.Ack?
    case Return => true
  }

  function MarkSettled(handed: seq<Submission>, phase: Phase): seq<Submission> {
    if handed == [] || phase == Uncertain then handed
    else handed[|handed| - 1 := handed[|handed| - 1].(settled := true)]
  }

  function MarkSeen(handed: seq<Submission>, id: Option<NoticeId>): seq<Submission> {
    if handed == [] || Some(handed[|handed| - 1].id) != id then handed
    else handed[|handed| - 1 := handed[|handed| - 1].(seen := true)]
  }

  function NoticeSet(id: Option<NoticeId>): set<NoticeId> {
    if id.Some? then {id.value} else {}
  }

  function RecordSave(h: History, before: Ledger, l: Ledger, kind: SaveKind, p: Proc): History {
    match kind
    case Absorbing => h
    case Starting =>
      h.(recorded := h.recorded + NoticeSet(l.id),
         flights := h.flights + (if before.id != l.id then 1 else 0),
         expiries := h.expiries + (if before.phase == Receiving then 1 else 0))
    case Settling =>
      h.(handed := MarkSettled(h.handed, l.phase),
         accepts := h.accepts + (if l.phase == Queued then 1 else 0))
    case Observing =>
      h.(observed := h.observed + NoticeSet(l.id),
         handed := MarkSeen(h.handed, l.id),
         overlooked := if l.phase == Received then p.missed else h.overlooked,
         drains := if l.phase == Received then h.drains else h.drains + [p.now],
         closes := h.closes + (if l.phase == Received then 1 else 0))
    case Closing => h.(overlooked := p.missed, closes := h.closes + 1)
  }

  predicate Possible(w: World, pid: Pid, e: Effect) {
    match e
    case Acquire => w.lock == None
    case Draw(nonce) => nonce !in w.hist.nonces
    case Claim(id) => id in w.files.pending
    case Finish(id) => id in w.files.pending || id in w.files.claimed
    case _ => true
  }

  function FinishFile(fs: Files, id: Id): Files
    requires id in fs.pending || id in fs.claimed
  {
    if id in fs.claimed then fs.FinishClaimed(id) else fs.FinishPending(id)
  }

  function Apply(w: World, pid: Pid, p: Proc, e: Effect): World
    requires Possible(w, pid, e)
  {
    var h := w.hist;
    match e
    case Nothing => w.Set(pid, p)
    case Acquire => w.(lock := Some(pid)).Set(pid, p)
    case Draw(nonce) => w.(hist := h.(nonces := h.nonces + {nonce})).Set(pid, p)
    case Save(l, kind) => w.(ledger := l, hist := RecordSave(h, w.ledger, l, kind, p)).Set(pid, p)
    case Claim(id) =>
      w.(files := w.files.Claim(id), hist := h.(owner := h.owner[id := pid])).Set(pid, p)
    case Finish(id) =>
      w.(files := FinishFile(w.files, id), hist := h.(acked := h.acked + [id])).Set(pid, p)
    case Hand(sub) => w.(hist := h.(handed := h.handed + [sub])).Set(pid, p)
    case Leave =>
      var notified := if p.call.Notify? && p.outcome == Ok then {p.call.item} else {};
      w.(lock := if w.lock == Some(pid) then None else w.lock,
         procs := w.procs - {pid},
         hist := h.(notified := h.notified + notified, returned := h.returned + p.got))
  }

  /** Item ids, process ids and random identities are fresh; the clock never
      goes back; the lock has one holder. */
  ghost predicate Enabled(w: World, a: Action) {
    match a
    case Push(id, _) => id !in w.hist.pushed
    case Start(pid, _) => pid !in w.hist.pids && pid !in w.procs
    case Advance(pid, c) =>
      && pid in w.procs
      && Shaped(w.procs[pid])
      && Possible(w, pid, Plan(w, w.procs[pid], c).1)
    case Crash(pid) => pid in w.procs
    case Tick(to) => w.clock <= to
    case Register(_) => true
  }

  ghost function Next(w: World, a: Action): World
    requires Enabled(w, a)
  {
    var h := w.hist;
    match a
    case Push(id, file) =>
      w.(files := w.files.Publish(id, file), hist := h.(pushed := h.pushed[id := file]))
    case Start(pid, call) =>
      w.(hist := h.(pids := h.pids + {pid})).Set(pid, Begun(call))
    case Advance(pid, c) =>
      var (p, e) := Plan(w, w.procs[pid], c);
      Apply(w, pid, p, e)
    case Crash(pid) =>
      w.(lock := if w.lock == Some(pid) then None else w.lock, procs := w.procs - {pid})
    case Tick(to) => w.(clock := to)
    case Register(protocol) => w.(address := protocol)
  }

  /** A step changes the locals of at most the call that takes it. */
  lemma CallAfter(w: World, a: Action, pid: Pid)
    requires Enabled(w, a) && pid in Next(w, a).procs
    ensures if a.Advance? && pid == a.pid then
              w.procs[pid].pc != Return && Next(w, a).procs[pid] == Plan(w, w.procs[pid], a.choice).0
            else if a.Start? && pid == a.pid then Next(w, a).procs[pid] == Begun(a.call)
            else pid in w.procs && Next(w, a).procs[pid] == w.procs[pid]
  {
    if a.Advance? {
      var (p, e) := Plan(w, w.procs[a.pid], a.choice);
      EffectOnCalls(w, a.pid, p, e);
      if w.procs[a.pid].pc != Return { OnlyReturnLeaves(w, w.procs[a.pid], a.choice); }
    }
  }

  lemma EffectOnCalls(w: World, pid: Pid, p: Proc, e: Effect)
    requires Possible(w, pid, e)
    ensures Apply(w, pid, p, e).procs == if e.Leave? then w.procs - {pid} else w.procs[pid := p]
  {
  }

  lemma PlanReturns(w: World, p: Proc, c: Choice)
    requires p.pc == Return
    ensures Shaped(p) && Plan(w, p, c) == (p, Leave)
  {
  }

  lemma ReturnStep(w: World, pid: Pid, c: Choice)
    requires pid in w.procs && w.procs[pid].pc == Return
    ensures Enabled(w, Advance(pid, c)) && Next(w, Advance(pid, c)) == Apply(w, pid, w.procs[pid], Leave)
  {
    PlanReturns(w, w.procs[pid], c);
  }

  lemma OnlyReturnLeaves(w: World, p: Proc, c: Choice)
    requires Shaped(p)
    ensures Plan(w, p, c).1.Leave? <==> p.pc == Return
  {
  }

  /** Away from its notifying part, a call reaches none of it but the first
      operation after a listing, and calls no host. */
  ghost predicate StaysOutside(q: Proc, p: Proc, e: Effect) {
    && p.call == q.call && !e.Hand?
    && (Notifying(p.pc) ==> q.pc == ReadItem && (p.pc == ReadAddress || p.pc == ProbeClaimed))
    && (e.Save? ==> q.pc == WriteObserved || q.pc == WriteClosed)
    && (p.pc == Return ==> !q.call.Notify? || p.outcome == OtherError)
  }

  lemma OutsideNotifying(w: World, q: Proc, c: Choice)
    requires Shaped(q) && !Notifying(q.pc) && q.pc != Return
    ensures StaysOutside(q, Plan(w, q, c).0, Plan(w, q, c).1)
  {
    if q.pc == ReadItem { ReadingStays(w, q, c); }
    else if q.pc == Scan { ScanningStays(w, q, c); }
    else if Listing(q.pc) { LockingStays(w, q, c); }
    else if Claiming(q.pc) { ClaimingStays(w, q, c); }
    else { AckStays(w, q, c); }
  }

  lemma LockingStays(w: World, q: Proc, c: Choice)
    requires Shaped(q) && (q.pc == Lock || q.pc == ReadLedger)
    ensures StaysOutside(q, PlanListing(w, q, c).0, PlanListing(w, q, c).1)
  {
  }

  lemma ScanningStays(w: World, q: Proc, c: Choice)
    requires Shaped(q) && q.pc == Scan
    ensures StaysOutside(q, PlanListing(w, q, c).0, PlanListing(w, q, c).1)
    ensures PlanListing(w, q, c).1 == Nothing
  {
    AfterScanStays(q, Sorted(w.files.pending.Keys), w.hist.pushed.Keys);
  }

  lemma AfterScanStays(q: Proc, names: seq<Id>, published: set<Id>)
    requires Shaped(q) && q.pc == Scan
    ensures StaysOutside(q, AfterScan(q, names, published), Nothing)
  {
  }

  lemma ReadingStays(w: World, q: Proc, c: Choice)
    requires Shaped(q) && q.pc == ReadItem
    ensures StaysOutside(q, PlanListing(w, q, c).0, PlanListing(w, q, c).1)
  {
  }

  lemma ClaimingStays(w: World, q: Proc, c: Choice)
    requires Shaped(q) && Claiming(q.pc)
    ensures StaysOutside(q, PlanClaiming(w, q, c).0, PlanClaiming(w, q, c).1)
    ensures var p := PlanClaiming(w, q, c).0;
            && p.ids == q.ids && p.base == q.base && p.missed == q.missed
            && (Claiming(p.pc) || p.pc == Scan || p.pc == Return)
  {
  }

  lemma AckStays(w: World, q: Proc, c: Choice)
    requires Shaped(q) && (q.pc == AckClaimed || q.pc == AckPending)
    ensures StaysOutside(q, PlanAck(w, q, c).0, PlanAck(w, q, c).1)
  {
  }

  /** A finite execution from an empty mailbox: the worlds it passes through
      and the actions between them. */
  ghost predicate IsRun(ws: seq<World>, acts: seq<Action>) {
    && |ws| == |acts| + 1
    && Init(ws[0])
    && forall i {:trigger acts[i]} | 0 <= i < |acts| :: Enabled(ws[i], acts[i]) && ws[i + 1] == Next(ws[i], acts[i])
  }
}
