/** The index from working directory to sessions. It is lazily stale: a put
    never removes an old marker, and each lookup checks what it finds against
    the address itself. The hash in a directory's segment is any function; no
    property of it is used, so collisions are covered. */
module AddressIndex {
  import opened Order
  import opened MailFiles
  import opened Paths

  datatype Address = Address(agent: string, name: string, cwd: string)

  /** The directory of one target, by its two segments. */
  datatype Slot = Slot(agent: string, name: string)

  /** An empty file _by_cwd/<segment>/<name> under an agent's directory. */
  datatype Marker = Marker(agent: string, segment: string, name: string)

  /** A directory of the index: _by_cwd/<segment> under an agent's directory. */
  datatype Dir = Dir(agent: string, segment: string)

  function Home(m: Marker): Dir { Dir(m.agent, m.segment) }

  datatype Store = Store(addrs: map<Slot, Address>, markers: set<Marker>, dirs: set<Dir>)

  const EMPTY_STORE := Store(map[], {}, {})

  type Hash = string -> string

  function SlotOf(agent: string, name: string): Option<Slot> {
    if Segment(agent).Some? && Segment(name).Some? then Some(Slot(Segment(agent).value, Segment(name).value)) else None
  }

  /** The marker an address in the given directory needs. */
  function MarkerFor(hash: Hash, slot: Slot, cwd: string): Option<Marker> {
    match CwdSegment(hash, cwd)
    case None => None
    case Some(segment) => Some(Marker(slot.agent, segment, slot.name))
  }

  /** The address of this directory, if any, can be found by its cwd. */
  predicate Marked(hash: Hash, s: Store, slot: Slot) {
    slot in s.addrs && MarkerFor(hash, slot, s.addrs[slot].cwd).Some? ==>
      MarkerFor(hash, slot, s.addrs[slot].cwd).value in s.markers
  }

  ghost predicate Indexed(hash: Hash, s: Store) {
    forall slot :: Marked(hash, s, slot)
  }

  /** Names are segments, and every marker is in a directory that exists. */
  ghost predicate WellFormed(s: Store) {
    && (forall m | m in s.markers :: Home(m) in s.dirs)
    && (forall slot | slot in s.addrs :: IsSegment(slot.agent) && IsSegment(slot.name))
    && (forall m | m in s.markers :: IsSegment(m.agent) && IsSegment(m.name))
  }

  /** A full scan: the names whose stored address has this cwd. */
  function Registered(s: Store, agent: string, cwd: string): set<string> {
    set slot | slot in s.addrs && slot.agent == agent && s.addrs[slot].cwd == cwd :: slot.name
  }

  /** The names in one directory of the index. */
  function Entries(s: Store, agent: string, segment: string): set<string> {
    set m | m in s.markers && m.agent == agent && m.segment == segment :: m.name
  }

  // ---- The operations as changes of the store ----

  /** An I/O error may stop an operation before its first rename or removal,
      after the address, or, late, between the index directory and its marker. */
  datatype Fault = Early | Between | Late | NoFault

  predicate IsEmpty(s: Store, d: Dir) {
    forall m | m in s.markers :: Home(m) != d
  }

  /** An index directory is removed only when it is empty. */
  function DropDir(s: Store, d: Dir): Store {
    if IsEmpty(s, d) then s.(dirs := s.dirs - {d}) else s
  }

  function Put(hash: Hash, s: Store, a: Address, fault: Fault): Store {
    var slot := SlotOf(a.agent, a.name);
    if slot == None || fault == Early then s
    else
      var m := MarkerFor(hash, slot.value, a.cwd);
      var published := s.(addrs := s.addrs[slot.value := a]);
      if m == None || fault == Between then published
      else
        published.(dirs := s.dirs + {Home(m.value)},
                   markers := if fault == NoFault then s.markers + {m.value} else s.markers)
  }

  function Remove(hash: Hash, s: Store, agent: string, name: string, fault: Fault): Store {
    var slot := SlotOf(agent, name);
    if slot == None || fault == Early then s
    else
      var gone := s.(addrs := s.addrs - {slot.value});
      if slot.value !in s.addrs || fault == Between then gone
      else match MarkerFor(hash, slot.value, s.addrs[slot.value].cwd)
        case None => gone
        case Some(m) =>
          var pruned := gone.(markers := s.markers - {m});
          if fault == Late then pruned else DropDir(pruned, Home(m))
  }

  /** What a put leaves: its address, and if it succeeds for some directory the
      marker there, so that the session is registered and found. */
  ghost predicate PutExactly(hash: Hash, before: Store, after: Store, a: Address, fault: Fault, ok: bool) {
    if Segment(a.agent) == None || Segment(a.name) == None || fault == Early then after == before && !ok
    else
      var agent, name := Segment(a.agent).value, Segment(a.name).value;
      && after.addrs == before.addrs[Slot(agent, name) := a]
      && name in Registered(after, agent, a.cwd)
      && (ok && a.cwd != "" ==>
            && CwdSegment(hash, a.cwd).Some?
            && var segment := CwdSegment(hash, a.cwd).value;
               && after.markers == before.markers + {Marker(agent, segment, name)}
               && after.dirs == before.dirs + {Dir(agent, segment)}
               && name in Entries(after, agent, segment))
      && (ok && a.cwd == "" ==> after.markers == before.markers && after.dirs == before.dirs)
      && (!ok ==> after.markers == before.markers)
  }

  /** What a removal leaves: everything but the address, its own marker and the
      directory of that marker if it is empty then. */
  ghost predicate RemoveExactly(
    hash: Hash, before: Store, after: Store, agent: string, name: string, fault: Fault, ok: bool)
  {
    if Segment(agent) == None || Segment(name) == None || fault == Early then after == before && !ok
    else
      var slot := Slot(Segment(agent).value, Segment(name).value);
      && after.addrs == before.addrs - {slot}
      && if ok && slot in before.addrs && before.addrs[slot].cwd != "" then
           && CwdSegment(hash, before.addrs[slot].cwd).Some?
           && var segment := CwdSegment(hash, before.addrs[slot].cwd).value;
              && after.markers == before.markers - {Marker(slot.agent, segment, slot.name)}
              && var last := forall m | m in after.markers :: !(m.agent == slot.agent && m.segment == segment);
                 after.dirs == if last && fault != Late then before.dirs - {Dir(slot.agent, segment)} else before.dirs
         else after.markers == before.markers && after.dirs == before.dirs
  }

  /** A put that ends, in success or in an error about its own arguments, or
      that changes nothing. */
  predicate PutEnds(hash: Hash, a: Address, fault: Fault) {
    fault == Between || fault == Late ==> SlotOf(a.agent, a.name) == None || CwdSegment(hash, a.cwd) == None
  }

  lemma SlotIsNamed(agent: string, name: string)
    ensures SlotOf(agent, name).Some? ==>
              IsSegment(SlotOf(agent, name).value.agent) && IsSegment(SlotOf(agent, name).value.name)
  {
    SegmentIsSafe(agent);
    SegmentIsSafe(name);
  }

  lemma PutKeeps(hash: Hash, s: Store, a: Address, fault: Fault)
    requires WellFormed(s)
    ensures WellFormed(Put(hash, s, a, fault))
    ensures forall slot | Marked(hash, s, slot) :: SlotOf(a.agent, a.name) != Some(slot) ==>
              Marked(hash, Put(hash, s, a, fault), slot)
    ensures forall slot | SlotOf(a.agent, a.name) == Some(slot) && PutEnds(hash, a, fault) && fault != Early ::
              Marked(hash, Put(hash, s, a, fault), slot)
  {
    SlotIsNamed(a.agent, a.name);
  }

  lemma RemoveKeeps(hash: Hash, s: Store, agent: string, name: string, fault: Fault)
    requires WellFormed(s)
    ensures WellFormed(Remove(hash, s, agent, name, fault))
    ensures forall slot | Marked(hash, s, slot) :: Marked(hash, Remove(hash, s, agent, name, fault), slot)
  {
    SlotIsNamed(agent, name);
  }

  /** With every address marked, an index directory that is checked entry by
      entry against the addresses gives the full scan. */
  lemma CheckedEntriesAreRegistered(hash: Hash, s: Store, agent: string, cwd: string)
    requires Indexed(hash, s) && CwdSegment(hash, cwd).Some?
    ensures Registered(s, agent, cwd) <= Entries(s, agent, CwdSegment(hash, cwd).value)
  {
    forall n | n in Registered(s, agent, cwd)
      ensures n in Entries(s, agent, CwdSegment(hash, cwd).value)
    {
      assert Marked(hash, s, Slot(agent, n));
      assert Marker(agent, CwdSegment(hash, cwd).value, n) in s.markers;
    }
  }

  // ---- Sequences of operations ----

  datatype Op =
    | PutOp(address: Address, fault: Fault)
    | RemoveOp(agent: string, name: string, fault: Fault)

  function Apply(hash: Hash, s: Store, op: Op): Store {
    match op
    case PutOp(a, fault) => Put(hash, s, a, fault)
    case RemoveOp(agent, name, fault) => Remove(hash, s, agent, name, fault)
  }

  function AfterAll(hash: Hash, ops: seq<Op>): Store {
    if ops == [] then EMPTY_STORE else Apply(hash, AfterAll(hash, ops[..|ops| - 1]), ops[|ops| - 1])
  }

  predicate Touches(op: Op, slot: Slot) {
    op.PutOp? && SlotOf(op.address.agent, op.address.name) == Some(slot) && op.fault != Early
  }

  /** The last put of this directory's address was not cut short. */
  predicate LastPutEnded(hash: Hash, ops: seq<Op>, slot: Slot) {
    if ops == [] then true
    else
      var last := ops[|ops| - 1];
      if Touches(last, slot) then PutEnds(hash, last.address, last.fault)
      else LastPutEnded(hash, ops[..|ops| - 1], slot)
  }

  /** Whatever puts, moves between directories and removals came before, and
      whichever of them failed, an address is found by its cwd if the last put
      of it was not cut short. */
  lemma {:induction false} LastPutDecides(hash: Hash, ops: seq<Op>)
    ensures WellFormed(AfterAll(hash, ops))
    ensures forall slot | LastPutEnded(hash, ops, slot) :: Marked(hash, AfterAll(hash, ops), slot)
  {
    if ops != [] {
      var before, last := ops[..|ops| - 1], ops[|ops| - 1];
      LastPutDecides(hash, before);
      match last
      case PutOp(a, fault) => PutKeeps(hash, AfterAll(hash, before), a, fault);
      case RemoveOp(agent, name, fault) => RemoveKeeps(hash, AfterAll(hash, before), agent, name, fault);
    }
  }

  predicate Ends(hash: Hash, op: Op) {
    op.PutOp? ==> PutEnds(hash, op.address, op.fault)
  }

  /** If no put is cut short, every lookup agrees with a full scan. */
  lemma IndexIsExact(hash: Hash, ops: seq<Op>)
    requires forall k | 0 <= k < |ops| :: Ends(hash, ops[k])
    ensures WellFormed(AfterAll(hash, ops)) && Indexed(hash, AfterAll(hash, ops))
  {
    LastPutDecides(hash, ops);
    forall slot
      ensures LastPutEnded(hash, ops, slot)
    {
      NoneCutShort(hash, ops, slot);
    }
  }

  lemma {:induction false} NoneCutShort(hash: Hash, ops: seq<Op>, slot: Slot)
    requires forall k | 0 <= k < |ops| :: Ends(hash, ops[k])
    ensures LastPutEnded(hash, ops, slot)
  {
    if ops != [] {
      assert Ends(hash, ops[|ops| - 1]);
      NoneCutShort(hash, ops[..|ops| - 1], slot);
    }
  }

  // ---- Exactly which addresses are found ----

  /** On a complete index a put that reaches its address keeps the index
      complete exactly when it is not cut short, needs no marker, or finds its
      marker already there. */
  lemma PutKeepsIndexExactly(hash: Hash, s: Store, a: Address, fault: Fault)
    requires Indexed(hash, s) && SlotOf(a.agent, a.name).Some? && fault != Early
    ensures var m := MarkerFor(hash, SlotOf(a.agent, a.name).value, a.cwd);
            Indexed(hash, Put(hash, s, a, fault)) <==> fault == NoFault || m == None || m.value in s.markers
  {
    var slot := SlotOf(a.agent, a.name).value;
    var next := Put(hash, s, a, fault);
    assert Marked(hash, next, slot) <==>
           fault == NoFault || MarkerFor(hash, slot, a.cwd) == None || MarkerFor(hash, slot, a.cwd).value in s.markers;
    forall other | other != slot
      ensures Marked(hash, next, other)
    {
      assert Marked(hash, s, other);
    }
  }

  /** Operation k wrote this marker. */
  predicate Writes(hash: Hash, op: Op, m: Marker) {
    && op.PutOp? && op.fault == NoFault
    && SlotOf(op.address.agent, op.address.name).Some?
    && MarkerFor(hash, SlotOf(op.address.agent, op.address.name).value, op.address.cwd) == Some(m)
  }

  /** An operation on this store pruned this marker: a removal of a target
      whose address named it. */
  predicate Prunes(hash: Hash, s: Store, op: Op, m: Marker) {
    && op.RemoveOp? && (op.fault == NoFault || op.fault == Late)
    && SlotOf(op.agent, op.name).Some?
    && var slot := SlotOf(op.agent, op.name).value;
       slot in s.addrs && MarkerFor(hash, slot, s.addrs[slot].cwd) == Some(m)
  }

  lemma MarkerAfter(hash: Hash, s: Store, op: Op, m: Marker)
    ensures m in Apply(hash, s, op).markers <==> Writes(hash, op, m) || (m in s.markers && !Prunes(hash, s, op, m))
  {
    match op
    case PutOp(a, fault) => MarkerAfterPut(hash, s, a, fault, m);
    case RemoveOp(agent, name, fault) => MarkerAfterRemove(hash, s, agent, name, fault, m);
  }

  lemma MarkerAfterPut(hash: Hash, s: Store, a: Address, fault: Fault, m: Marker)
    ensures m in Put(hash, s, a, fault).markers <==> Writes(hash, PutOp(a, fault), m) || m in s.markers
  {
  }

  lemma MarkerAfterRemove(hash: Hash, s: Store, agent: string, name: string, fault: Fault, m: Marker)
    ensures m in Remove(hash, s, agent, name, fault).markers <==>
              m in s.markers && !Prunes(hash, s, RemoveOp(agent, name, fault), m)
  {
  }

  /** Of the operations that wrote or pruned the marker, the last one wrote it. */
  predicate LastWrote(hash: Hash, ops: seq<Op>, m: Marker) {
    if ops == [] then false
    else
      var before, last := ops[..|ops| - 1], ops[|ops| - 1];
      if Writes(hash, last, m) then true
      else if Prunes(hash, AfterAll(hash, before), last, m) then false
      else LastWrote(hash, before, m)
  }

  lemma {:induction false} MarkerIsThereExactly(hash: Hash, ops: seq<Op>, m: Marker)
    ensures m in AfterAll(hash, ops).markers <==> LastWrote(hash, ops, m)
  {
    if ops != [] {
      MarkerIsThereExactly(hash, ops[..|ops| - 1], m);
      MarkerAfter(hash, AfterAll(hash, ops[..|ops| - 1]), ops[|ops| - 1], m);
    }
  }

  /** After any operations with any failures, a registered address with a usable
      directory is in that directory's index exactly when, of the operations
      that wrote or pruned its marker there, the last one wrote it. */
  lemma FoundExactly(hash: Hash, ops: seq<Op>, slot: Slot)
    requires slot in AfterAll(hash, ops).addrs
    requires MarkerFor(hash, slot, AfterAll(hash, ops).addrs[slot].cwd).Some?
    ensures var s := AfterAll(hash, ops);
            var m := MarkerFor(hash, slot, s.addrs[slot].cwd).value;
            slot.name in Entries(s, slot.agent, m.segment) <==> LastWrote(hash, ops, m)
  {
    var s := AfterAll(hash, ops);
    var m := MarkerFor(hash, slot, s.addrs[slot].cwd).value;
    MarkerIsThereExactly(hash, ops, m);
  }

  /** A put that is cut short hides the session from lookups by directory: on an
      empty store its address is registered and not found. */
  lemma CutShortIsHidden(hash: Hash, a: Address, fault: Fault)
    requires SlotOf(a.agent, a.name).Some? && (fault == Between || fault == Late)
    ensures var s, slot := Put(hash, EMPTY_STORE, a, fault), SlotOf(a.agent, a.name).value;
            && slot.name in Registered(s, slot.agent, a.cwd)
            && (Marked(hash, s, slot) <==> PutEnds(hash, a, fault))
  {
  }

  // ---- The program ----

  predicate Everywhere(seen: seq<Store>, agent: string, cwd: string, name: string) {
    forall k | 0 <= k < |seen| :: name in Registered(seen[k], agent, cwd)
  }

  predicate Somewhere(seen: seq<Store>, agent: string, cwd: string, name: string) {
    exists k | 0 <= k < |seen| :: name in Registered(seen[k], agent, cwd)
  }

  /** A lookup that has checked the first n entries. */
  ghost predicate Checked(
    seen: seq<Store>, agent: string, cwd: string, entries: seq<string>, n: nat, found: seq<string>)
  {
    && n <= |entries|
    && (forall name | name in found :: Somewhere(seen, agent, cwd, name))
    && (forall j | 0 <= j < n :: Everywhere(seen, agent, cwd, entries[j]) ==> entries[j] in found)
  }

  lemma CheckedNext(
    seen: seq<Store>, now: Store, agent: string, cwd: string, entries: seq<string>, n: nat, found: seq<string>)
    requires n < |entries| && Checked(seen, agent, cwd, entries, n, found)
    ensures var hit := entries[n] in Registered(now, agent, cwd);
            Checked(seen + [now], agent, cwd, entries, n + 1, if hit then found + [entries[n]] else found)
  {
    var later := seen + [now];
    assert later[|seen|] == now;
    forall name | name in found
      ensures Somewhere(later, agent, cwd, name)
    {
      var k :| 0 <= k < |seen| && name in Registered(seen[k], agent, cwd);
      assert later[k] == seen[k];
    }
    forall j | 0 <= j < n && Everywhere(later, agent, cwd, entries[j])
      ensures entries[j] in found
    {
      forall k | 0 <= k < |seen|
        ensures entries[j] in Registered(seen[k], agent, cwd)
      {
        assert later[k] == seen[k];
      }
    }
  }

  predicate AllSame(seen: seq<Store>, s: Store) {
    forall k | 0 <= k < |seen| :: seen[k] == s
  }

  ghost predicate AllNamed(entries: seq<string>) {
    forall n | n in entries :: IsSegment(n)
  }

  lemma EntriesAreNamed(s: Store, agent: string, segment: string)
    requires WellFormed(s)
    ensures AllNamed(Sorted(Entries(s, agent, segment)))
  {
  }

  /** What a lookup promises among other processes: each name it returns had the
      asked cwd at one of its reads, each listed name that had it at all of them
      is returned, and so is any other if the index was complete when listed. */
  ghost predicate Looked(hash: Hash, seen: seq<Store>, agent: string, cwd: string, names: seq<string>)
    requires seen != []
  {
    && Ascending(names)
    && (forall n | n in names :: Somewhere(seen, agent, cwd, n))
    && (CwdSegment(hash, cwd).Some? ==>
          forall n | n in Entries(seen[0], agent, CwdSegment(hash, cwd).value) && Everywhere(seen, agent, cwd, n) ::
            n in names)
    && (Indexed(hash, seen[0]) ==> forall n | Everywhere(seen, agent, cwd, n) :: n in names)
  }

  lemma LookupIsSound(
    hash: Hash, seen: seq<Store>, agent: string, cwd: string, entries: seq<string>, found: seq<string>)
    requires seen != [] && CwdSegment(hash, cwd).Some?
    requires entries == Sorted(Entries(seen[0], agent, CwdSegment(hash, cwd).value))
    requires Checked(seen, agent, cwd, entries, |entries|, found)
    ensures Looked(hash, seen, agent, cwd, Sorted(set n | n in found))
  {
    if Indexed(hash, seen[0]) {
      CheckedEntriesAreRegistered(hash, seen[0], agent, cwd);
      forall n | Everywhere(seen, agent, cwd, n)
        ensures n in found
      {
        assert n in Registered(seen[0], agent, cwd);
        assert n in entries;
      }
    }
  }

  lemma LookupIsExact(hash: Hash, seen: seq<Store>, s: Store, agent: string, cwd: string, names: seq<string>)
    requires seen != [] && Looked(hash, seen, agent, cwd, names)
    ensures AllSame(seen, s) && Indexed(hash, s) ==> names == Sorted(Registered(s, agent, cwd))
  {
    if AllSame(seen, s) && Indexed(hash, s) {
      assert seen[0] == s;
      forall n
        ensures n in names <==> n in Registered(s, agent, cwd)
      {
        if n in Registered(s, agent, cwd) { assert Everywhere(seen, agent, cwd, n); }
      }
      SortedUnique(names, Registered(s, agent, cwd));
    }
  }

  /** What the schedule leaves behind after n of its steps, and what is left of
      it. */
  function StoreAt(s: Store, schedule: seq<Store>, n: nat): Store
    decreases n
  {
    if n == 0 || schedule == [] then s else StoreAt(schedule[0], schedule[1..], n - 1)
  }

  function StepsLeft(schedule: seq<Store>, n: nat): seq<Store>
    decreases n
  {
    if n == 0 || schedule == [] then schedule else StepsLeft(schedule[1..], n - 1)
  }

  lemma {:induction false} OneLater(s: Store, schedule: seq<Store>, n: nat)
    ensures StoreAt(s, schedule, n + 1) == StoreAt(StoreAt(s, schedule, n), StepsLeft(schedule, n), 1)
    ensures StepsLeft(schedule, n + 1) == StepsLeft(StepsLeft(schedule, n), 1)
    decreases n
  {
    if n > 0 && schedule != [] { OneLater(schedule[0], schedule[1..], n - 1); }
  }

  /** The stores a lookup has read are those the schedule left, one after the
      other, and the last of them is the one it stands at. */
  ghost predicate Witnessed(seen: seq<Store>, start: Store, schedule: seq<Store>) {
    forall k {:trigger seen[k]} | 0 <= k < |seen| :: seen[k] == StoreAt(start, schedule, k + 1)
  }

  ghost predicate Reading(seen: seq<Store>, start: Store, schedule: seq<Store>, now: Store, rest: seq<Store>) {
    && seen != [] && Witnessed(seen, start, schedule)
    && now == StoreAt(start, schedule, |seen|) && rest == StepsLeft(schedule, |seen|)
  }

  lemma ReadsNext(
    seen: seq<Store>, start: Store, schedule: seq<Store>, now: Store, rest: seq<Store>, next: Store, left: seq<Store>)
    requires Reading(seen, start, schedule, now, rest)
    requires next == StoreAt(now, rest, 1) && left == StepsLeft(rest, 1)
    ensures Reading(seen + [next], start, schedule, next, left)
  {
    OneLater(start, schedule, |seen|);
  }

  lemma WitnessedAlone(seen: seq<Store>, start: Store)
    requires Witnessed(seen, start, [])
    ensures AllSame(seen, start)
  {
  }

  class AddressBook {
    const hash: Hash
    var store: Store
    var schedule: seq<Store>   // what other processes leave behind, step by step

    ghost predicate Valid()
      reads this
    {
      WellFormed(store) && forall k | 0 <= k < |schedule| :: WellFormed(schedule[k])
    }

    constructor (hash: Hash)
      ensures Valid() && this.hash == hash && store == EMPTY_STORE && schedule == []
    {
      this.hash := hash;
      store := EMPTY_STORE;
      schedule := [];
    }

    method Interfere()
      requires Valid()
      modifies this
      ensures Valid()
      ensures store == StoreAt(old(store), old(schedule), 1) && schedule == StepsLeft(old(schedule), 1)
    {
      if schedule != [] {
        store := schedule[0];
        schedule := schedule[1..];
      }
    }

    /** Publishes an address, then makes its index directory and its marker. */
    method PutAddress(a: Address, fault: Fault) returns (ok: bool)
      requires Valid()
      modifies this`store
      ensures Valid() && store == Put(hash, old(store), a, fault)
      ensures ok <==> SlotOf(a.agent, a.name).Some? && fault != Early
                      && (a.cwd == "" || (CwdSegment(hash, a.cwd).Some? && fault == NoFault))
      ensures Indexed(hash, old(store)) && PutEnds(hash, a, fault) ==> Indexed(hash, store)
      ensures PutExactly(hash, old(store), store, a, fault, ok)
    {
      PutKeeps(hash, store, a, fault);
      var agent := SanitizeSegment(a.agent);
      var name := SanitizeSegment(a.name);
      if agent == None || name == None || fault == Early { return false; }
      var slot := Slot(agent.value, name.value);
      store := store.(addrs := store.addrs[slot := a]);
      if a.cwd != "" {
        var segment := CwdSegment(hash, a.cwd);
        if segment == None || fault == Between { return false; }
        store := store.(dirs := store.dirs + {Dir(slot.agent, segment.value)});
        if fault == Late { return false; }
        store := store.(markers := store.markers + {Marker(slot.agent, segment.value, slot.name)});
      }
      return true;
    }

    /** Removes an address, the marker of the directory it names, and that index
        directory once its last marker is gone. A directory that cannot be
        removed is no error. */
    method RemoveAddress(agent: string, name: string, fault: Fault) returns (ok: bool)
      requires Valid()
      modifies this`store
      ensures Valid() && store == Remove(hash, old(store), agent, name, fault)
      ensures ok <==> SlotOf(agent, name).Some? && fault != Early && fault != Between
                      && var slot := SlotOf(agent, name).value;
                         slot in old(store).addrs && old(store).addrs[slot].cwd != "" ==>
                           CwdSegment(hash, old(store).addrs[slot].cwd).Some?
      ensures ok ==> SlotOf(agent, name).value !in store.addrs
      ensures Indexed(hash, old(store)) ==> Indexed(hash, store)
      ensures RemoveExactly(hash, old(store), store, agent, name, fault, ok)
    {
      RemoveKeeps(hash, store, agent, name, fault);
      var a := SanitizeSegment(agent);
      var n := SanitizeSegment(name);
      if a == None || n == None || fault == Early { return false; }
      var slot := Slot(a.value, n.value);
      var addr := if slot in store.addrs then Some(store.addrs[slot]) else None;
      store := store.(addrs := store.addrs - {slot});
      if fault == Between { return false; }
      if addr == None || addr.value.cwd == "" { return true; }
      var segment := CwdSegment(hash, addr.value.cwd);
      if segment == None { return false; }
      store := store.(markers := store.markers - {Marker(slot.agent, segment.value, slot.name)});
      if fault != Late { store := DropDir(store, Dir(slot.agent, segment.value)); }
      return true;
    }

    /** The sessions registered in a directory, by name. Between any two reads
        other processes may leave any store behind; `seen` is what was there at
        each read. The index directory is read first and then each entry's
        address; the first `working` of these reads work and the next one, on a
        failing disk or an undecodable address, does not. */
    method TargetsByCwd(agent: string, cwd: string, working: nat)
      returns (r: Option<seq<string>>, ghost seen: seq<Store>)
      requires Valid()
      modifies this
      ensures Valid()
      ensures !Usable(agent, cwd) || working == 0 ==> r == None
      ensures Usable(agent, cwd) && working > 0 ==>
                && seen != [] && Witnessed(seen, old(store), old(schedule))
                && var entries := Entries(seen[0], Segment(agent).value, CwdSegment(hash, cwd).value);
                   && (r.Some? <==> |entries| < working)
                   && (r.Some? ==> |seen| == |entries| + 1)
      ensures r.Some? ==> Looked(hash, seen, Segment(agent).value, cwd, r.value)
      ensures old(schedule) == [] ==> store == old(store)
      ensures r.Some? && old(schedule) == [] && Indexed(hash, old(store)) ==>
                r.value == Sorted(Registered(old(store), Segment(agent).value, cwd))
    {
      seen := [];
      var a := SanitizeSegment(agent);
      var segment := CwdSegment(hash, cwd);
      if a == None || segment == None || working == 0 { return None, []; }
      Interfere();
      var entries := Sort(Entries(store, a.value, segment.value));
      EntriesAreNamed(store, a.value, segment.value);
      var found, ok;
      found, ok, seen := CheckEntries(a.value, cwd, entries, working - 1, old(store), old(schedule));
      if old(schedule) == [] { WitnessedAlone(seen, old(store)); }
      if !ok { return None, seen; }
      LookupIsSound(hash, seen, a.value, cwd, entries, found);
      LookupIsExact(hash, seen, old(store), a.value, cwd, Sorted(set n | n in found));
      var targets := Sort(set n | n in found);
      return Some(targets), seen;
    }

    ghost predicate Usable(agent: string, cwd: string) {
      Segment(agent).Some? && CwdSegment(hash, cwd).Some?
    }

    /** Checks every entry of an index directory, just listed. */
    method CheckEntries(
      agent: string, cwd: string, entries: seq<string>, working: nat, ghost start: Store, ghost steps: seq<Store>)
      returns (found: seq<string>, ok: bool, ghost seen: seq<Store>)
      requires Valid() && AllNamed(entries) && Reading([store], start, steps, store, schedule)
      modifies this
      ensures Valid() && Reading(seen, start, steps, store, schedule) && seen[0] == old(store)
      ensures ok <==> |entries| <= working
      ensures ok ==> Checked(seen, agent, cwd, entries, |entries|, found) && |seen| == |entries| + 1
    {
      seen := [store];
      found := [];
      var i := 0;
      while i < |entries|
        invariant Valid() && 0 <= i <= |entries| && i <= working && |seen| == i + 1
        invariant Reading(seen, start, steps, store, schedule) && seen[0] == old(store)
        invariant Checked(seen, agent, cwd, entries, i, found)
      {
        if i == working { return [], false, seen; }
        ghost var now, rest := store, schedule;
        var hit := CheckEntry(agent, cwd, entries[i]);
        CheckedNext(seen, store, agent, cwd, entries, i, found);
        ReadsNext(seen, start, steps, now, rest, store, schedule);
        seen := seen + [store];
        if hit { found := found + [entries[i]]; }
        i := i + 1;
      }
      ok := true;
    }

    /** Reads the address of an index entry. */
    method CheckEntry(agent: string, cwd: string, entry: string) returns (hit: bool)
      requires Valid() && IsSegment(entry)
      modifies this
      ensures Valid() && (hit <==> entry in Registered(store, agent, cwd))
      ensures store == StoreAt(old(store), old(schedule), 1) && schedule == StepsLeft(old(schedule), 1)
    {
      Interfere();
      SegmentFixed(entry);
      var name := SanitizeSegment(entry);
      var slot := Slot(agent, name.value);
      return slot in store.addrs && store.addrs[slot].cwd == cwd;
    }
  }
}
