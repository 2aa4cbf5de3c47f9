/** The payload side of one target directory: pending/, claimed/ and done/.

    A file holds either a readable item or bytes that cannot be decoded. Every
    change is one atomic rename. */
module MailFiles {

  datatype Option<+T> = None | Some(value: T)

  type Id = string

  datatype File = Good(text: string) | Corrupt

  datatype Item = Item(id: Id, text: string)

  datatype Stage = Absent | Pending | Claimed | Done {
    function Rank(): nat {
      match this
      case Absent => 0
      case Pending => 1
      case Claimed => 2
      case Done => 3
    }
  }

  datatype Files = Files(pending: map<Id, File>, claimed: map<Id, File>, done: map<Id, File>) {

    // The rename that publishes a fully written item from tmp/.
    function Publish(id: Id, file: File): Files {
      this.(pending := pending[id := file])
    }

    // pending/ -> claimed/
    function Claim(id: Id): Files
      requires id in pending
    {
      this.(pending := pending - {id}, claimed := claimed[id := pending[id]])
    }

    // claimed/ -> done/
    function FinishClaimed(id: Id): Files
      requires id in claimed
    {
      this.(claimed := claimed - {id}, done := done[id := claimed[id]])
    }

    // pending/ -> done/
    function FinishPending(id: Id): Files
      requires id in pending
    {
      this.(pending := pending - {id}, done := done[id := pending[id]])
    }

    // No id has a file in two directories.
    predicate Disjoint() {
      && pending.Keys !! claimed.Keys
      && pending.Keys !! done.Keys
      && claimed.Keys !! done.Keys
    }

    // The file of an id, whatever directory holds it.
    function Lookup(id: Id): Option<File> {
      if id in pending then Some(pending[id])
      else if id in claimed then Some(claimed[id])
      else if id in done then Some(done[id])
      else None
    }

    function StageOf(id: Id): Stage {
      if id in pending then Pending
      else if id in claimed then Claimed
      else if id in done then Done
      else Absent
    }

    // The items a listing of pending/ can show.
    predicate Readable(id: Id) {
      id in pending && pending[id].Good?
    }
  }

  const EMPTY_FILES := Files(map[], map[], map[])

  /** Items are never lost or rewritten, and only move towards done/. */
  ghost predicate Forward(a: Files, b: Files)
  {
    && (forall id :: a.Lookup(id).Some? ==> b.Lookup(id) == a.Lookup(id))
    && (forall id :: a.StageOf(id).Rank() <= b.StageOf(id).Rank())
  }

  lemma ForwardTransitive(a: Files, b: Files, c: Files)
    requires Forward(a, b) && Forward(b, c)
    ensures Forward(a, c)
  {
    forall id
      ensures a.StageOf(id).Rank() <= c.StageOf(id).Rank()
    {
      assert a.StageOf(id).Rank() <= b.StageOf(id).Rank() <= c.StageOf(id).Rank();
    }
  }

  lemma ClaimMoves(fs: Files, id: Id)
    requires fs.Disjoint() && id in fs.pending
    ensures fs.Claim(id).Disjoint()
    ensures forall x :: fs.Claim(id).Lookup(x) == fs.Lookup(x)
    ensures Forward(fs, fs.Claim(id))
  {
  }

  lemma FinishClaimedMoves(fs: Files, id: Id)
    requires fs.Disjoint() && id in fs.claimed
    ensures fs.FinishClaimed(id).Disjoint()
    ensures forall x :: fs.FinishClaimed(id).Lookup(x) == fs.Lookup(x)
    ensures Forward(fs, fs.FinishClaimed(id))
  {
  }

  lemma FinishPendingMoves(fs: Files, id: Id)
    requires fs.Disjoint() && id in fs.pending
    ensures fs.FinishPending(id).Disjoint()
    ensures forall x :: fs.FinishPending(id).Lookup(x) == fs.Lookup(x)
    ensures Forward(fs, fs.FinishPending(id))
  {
  }

  lemma PublishAdds(fs: Files, id: Id, file: File)
    requires fs.Disjoint() && fs.Lookup(id) == None
    ensures fs.Publish(id, file).Disjoint()
    ensures forall x :: fs.Publish(id, file).Lookup(x) == if x == id then Some(file) else fs.Lookup(x)
    ensures Forward(fs, fs.Publish(id, file))
  {
  }
}
