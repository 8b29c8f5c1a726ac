/** Promotion to the final names: crash-safe at every point of Close, never overwriting, and
    when a delivered file is safe from later sessions. */
module DurablePromotion {
  import opened Wire
  import opened Geometry
  import opened Journals
  import opened Storage
  import opened Durable
  import opened DurableSafety
  import opened DurableResults
  import SafePath

  // ---------------------------------------------------------------- Close

  predicate Holds(d: Disk, i: nat, bytes: seq<byte>) {
    i in d.files && d.files[i].clean && d.files[i].data == bytes
  }

  /** The verified bytes of a file are, durably, at its partial path or at its final path. */
  predicate AtHome(d: Disk, id: Id, f: nat, e: FileEntry) {
    || (Key(id, f) in d.parts && Holds(d, d.parts[Key(id, f)], e.digest.pre))
    || (e.name in d.finals && Holds(d, d.finals[e.name], e.digest.pre))
  }

  /** No final name of `d` has gone, moved or changed. */
  predicate FinalsKept(d: Disk, e: Disk) {
    forall n :: n in d.finals ==>
      && n in e.finals && e.finals[n] == d.finals[n] && d.finals[n] in d.files && d.finals[n] in e.files
      && e.files[d.finals[n]].data == d.files[d.finals[n]].data
  }

  /** Between `d` and `e` promotion has moved some partials of `j` to their final names. */
  predicate Moving(d: Disk, e: Disk, j: Journal, n: nat) {
    && e.files == d.files && n <= |j.files|
    && (forall m :: m in d.finals ==> m in e.finals && e.finals[m] == d.finals[m])
    && (forall f :: 0 <= f < |j.files| && Key(j.transferId, f) in d.parts ==>
          || (Key(j.transferId, f) in e.parts && e.parts[Key(j.transferId, f)] == d.parts[Key(j.transferId, f)])
          || (j.files[f].entry.name in e.finals && e.finals[j.files[f].entry.name] == d.parts[Key(j.transferId, f)]))
    && (forall f :: 0 <= f < n && Key(j.transferId, f) in d.parts ==>
          j.files[f].entry.name in e.finals && e.finals[j.files[f].entry.name] == d.parts[Key(j.transferId, f)])
  }

  lemma PromoteMoves(d: Disk, b: Disk, j: Journal, f: nat, mode: PromoteMode)
    requires f < |j.files| && Moving(d, b, j, f) && Key(j.transferId, f) in d.parts
    ensures var c := Promote(b, Key(j.transferId, f), j.files[f].entry.name, mode);
            && (forall i :: 0 <= i < |c.trace| ==> Moving(d, c.trace[i], j, f))
            && Moving(d, c.disk, j, f) && (c.ok ==> Moving(d, c.disk, j, f + 1))
  {}

  lemma {:induction false} PromoteAllMoves(d: Disk, j: Journal, n: nat, modes: seq<PromoteMode>)
    requires n <= |j.files| && (forall f :: 0 <= f < |j.files| ==> Key(j.transferId, f) in d.parts)
    ensures var c := PromoteAll(d, j, n, modes);
            && (forall i :: 0 <= i < |c.trace| ==> Moving(d, c.trace[i], j, 0))
            && Moving(d, c.disk, j, 0) && (c.ok ==> Moving(d, c.disk, j, n))
  {
    hide Moving, Promote;
    if n == 0 {
      NothingMoved(d, j);
    } else {
      PromoteAllMoves(d, j, n - 1, modes);
      var before := PromoteAll(d, j, n - 1, modes);
      if before.ok {
        PromoteMoves(d, before.disk, j, n - 1, ModeAt(modes, n - 1));
        var p := Promote(before.disk, Key(j.transferId, n - 1), j.files[n - 1].entry.name, ModeAt(modes, n - 1));
        forall i | 0 <= i < |p.trace| ensures Moving(d, p.trace[i], j, 0) { Earlier(d, p.trace[i], j, n - 1); }
        Earlier(d, p.disk, j, n - 1);
      }
    }
  }

  lemma NothingMoved(d: Disk, j: Journal)
    ensures Moving(d, d, j, 0)
  {}

  lemma Earlier(d: Disk, e: Disk, j: Journal, n: nat)
    requires Moving(d, e, j, n)
    ensures Moving(d, e, j, 0)
  {}

  /** Every file of a session that finished them all is verified and durable. */
  lemma FinishedHolds(q: set<Id>, d: Disk, s: Session, f: nat)
    requires SessionOk(q, d, s) && AllFinished(s) && f < |s.journal.value.files|
    ensures Key(s.journal.value.transferId, f) in d.parts
    ensures Holds(d, d.parts[Key(s.journal.value.transferId, f)], s.journal.value.files[f].entry.digest.pre)
  {
    hide Valid, Pos, Blocks;
    assert SinkOk(q, d, s.journal.value, f, s.sinks[f]);
  }

  lemma MovingAtHome(d: Disk, e: Disk, j: Journal, f: nat)
    requires Moving(d, e, j, 0) && f < |j.files| && Key(j.transferId, f) in d.parts
    requires Holds(d, d.parts[Key(j.transferId, f)], j.files[f].entry.digest.pre)
    ensures AtHome(e, j.transferId, f, j.files[f].entry)
  {}

  /** One disk of a Close: everything is at home, no final name was touched, and the journal
      is gone only once every file is at its final name. */
  predicate CloseSafe(d: Disk, e: Disk, j: Journal) {
    && (forall f :: 0 <= f < |j.files| ==> AtHome(e, j.transferId, f, j.files[f].entry))
    && FinalsKept(d, e)
    && (j.transferId !in e.journals ==>
          forall f :: 0 <= f < |j.files| ==>
            j.files[f].entry.name in e.finals && Holds(e, e.finals[j.files[f].entry.name], j.files[f].entry.digest.pre))
  }

  lemma MovingSafe(d: Disk, e: Disk, j: Journal, n: nat)
    requires NamesOk(d) && Moving(d, e, j, n)
    requires forall f :: 0 <= f < |j.files| ==> Key(j.transferId, f) in d.parts
                                                && Holds(d, d.parts[Key(j.transferId, f)], j.files[f].entry.digest.pre)
    requires n == |j.files| || j.transferId in e.journals
    ensures CloseSafe(d, e, j)
  {
    hide AtHome;
    Earlier(d, e, j, n);
    forall f | 0 <= f < |j.files| ensures AtHome(e, j.transferId, f, j.files[f].entry) { MovingAtHome(d, e, j, f); }
  }

  /** Dropping the journal and the partial tree touches no file and no final name. */
  lemma DroppedSafe(d: Disk, e: Disk, g: Disk, j: Journal)
    requires NamesOk(d) && Moving(d, e, j, |j.files|) && g.files == e.files && g.finals == e.finals
    requires forall f :: 0 <= f < |j.files| ==> Key(j.transferId, f) in d.parts
                                                && Holds(d, d.parts[Key(j.transferId, f)], j.files[f].entry.digest.pre)
    ensures CloseSafe(d, g, j)
  {}

  lemma {:induction false} PromoteAllJournals(d: Disk, j: Journal, n: nat, modes: seq<PromoteMode>)
    requires n <= |j.files|
    ensures var c := PromoteAll(d, j, n, modes);
            c.disk.journals == d.journals && (forall i :: 0 <= i < |c.trace| ==> c.trace[i].journals == d.journals)
  {
    if n > 0 {
      PromoteAllJournals(d, j, n - 1, modes);
      var before := PromoteAll(d, j, n - 1, modes);
      var p := Promote(before.disk, Key(j.transferId, n - 1), j.files[n - 1].entry.name, ModeAt(modes, n - 1));
      assert p.disk.journals == before.disk.journals;
      assert forall i :: 0 <= i < |p.trace| ==> p.trace[i].journals == before.disk.journals;
    }
  }

  lemma CloseIsSafe(q: set<Id>, d: Disk, s: Session, modes: seq<PromoteMode>, at: nat)
    requires DiskOk(q, d) && SessionOk(q, d, s) && !Idle(s) && AllFinished(s)
    requires at < |Seen(Close(d, s, modes).call)|
    ensures CloseSafe(d, Seen(Close(d, s, modes).call)[at], s.journal.value)
  {
    hide SessionOk, DiskOk, JournalOk, AllFinished, PromoteAll, CloseSafe, Moving, FileStateOk, Backed;
    Finished(s);
    SessionJournal(q, d, s);
    var j := s.journal.value;
    assert NamesOk(d) by { DiskNames(q, d); }
    forall f | 0 <= f < |j.files|
      ensures Key(j.transferId, f) in d.parts && Holds(d, d.parts[Key(j.transferId, f)], j.files[f].entry.digest.pre)
    {
      FinishedHolds(q, d, s, f);
    }
    PromoteAllMoves(d, j, |j.files|, modes);
    PromoteAllJournals(d, j, |j.files|, modes);
    var p := PromoteAll(d, j, |j.files|, modes);
    var seen := Seen(Close(d, s, modes).call);
    if at < |p.trace| {
      MovingSafe(d, p.trace[at], j, 0);
    } else if at == |p.trace| {
      MovingSafe(d, p.disk, j, 0);
    } else {
      DroppedSafe(d, p.disk, seen[at], j);
    }
  }

  lemma DiskNames(q: set<Id>, d: Disk)
    requires DiskOk(q, d)
    ensures NamesOk(d)
  {}

  /** What a crash during Close leaves is just as safe. */
  lemma CrashedCloseIsSafe(q: set<Id>, d: Disk, s: Session, modes: seq<PromoteMode>, at: nat, found: Disk)
    requires DiskOk(q, d) && SessionOk(q, d, s) && !Idle(s) && AllFinished(s)
    requires at < |Seen(Close(d, s, modes).call)| && Survives(Seen(Close(d, s, modes).call)[at], found)
    ensures forall f :: 0 <= f < |s.journal.value.files| ==>
              AtHome(found, s.journal.value.transferId, f, s.journal.value.files[f].entry)
    ensures s.journal.value.transferId !in found.journals ==>
              forall f :: 0 <= f < |s.journal.value.files| ==>
                && s.journal.value.files[f].entry.name in found.finals
                && Holds(found, found.finals[s.journal.value.files[f].entry.name], s.journal.value.files[f].entry.digest.pre)
  {
    hide Close, SessionOk, DiskOk, AllFinished;
    CloseIsSafe(q, d, s, modes, at);
    Finished(s);
    assert NamesOk(Seen(Close(d, s, modes).call)[at]) by {
      CloseOk(q, d, s, modes);
      DiskNames(q, Seen(Close(d, s, modes).call)[at]);
    }
    var e, j := Seen(Close(d, s, modes).call)[at], s.journal.value;
    forall f | 0 <= f < |j.files| ensures AtHome(found, j.transferId, f, j.files[f].entry) {
      CrashedAtHome(e, found, j.transferId, f, j.files[f].entry);
    }
  }

  lemma CrashedAtHome(e: Disk, found: Disk, id: Id, f: nat, entry: FileEntry)
    requires NamesOk(e) && Survives(e, found) && AtHome(e, id, f, entry)
    ensures AtHome(found, id, f, entry)
  {}

  // ---------------------------------------------------------------- later sessions

  /** A partial that still shares its file with a final name belongs to a journal that claims
      the whole file, so no later session will write or shorten it. */
  predicate SharedIsComplete(d: Disk, k: Key) {
    && k.id in d.journals && d.journals[k.id].Whole? && k.f < |d.journals[k.id].j.files|
    && var s := d.journals[k.id].j.files[k.f];
       s.committed == s.entry.blocks && k in d.parts && d.parts[k] in d.files && |d.files[d.parts[k]].data| == s.entry.size
  }

  predicate Delivered(d: Disk) {
    && (forall n :: n in d.finals ==> d.finals[n] in d.files && d.files[d.finals[n]].clean)
    && (forall k, n :: k in d.parts && n in d.finals && d.parts[k] == d.finals[n] ==> SharedIsComplete(d, k))
  }

  /** Final names stay delivered, and none of those of `d` has changed. */
  predicate StillDelivered(d: Disk, e: Disk) { Delivered(e) && FinalsKept(d, e) }

  predicate AllDelivered(d: Disk, c: Call) {
    forall i :: 0 <= i < |Seen(c)| ==> StillDelivered(d, Seen(c)[i])
  }

  lemma SameDelivered(d: Disk, e: Disk)
    requires Delivered(d) && e.files == d.files && e.finals == d.finals && e.parts == d.parts
    requires e.journals == d.journals
    ensures StillDelivered(d, e)
  {}

  lemma OneDelivered(d: Disk, e: Disk, ok: bool)
    requires StillDelivered(d, e)
    ensures AllDelivered(d, Call([], e, ok))
  {
    hide StillDelivered;
  }

  /** A file that is not final may change; a final one may only be rewritten as it is. */
  lemma SetFileDelivered(d: Disk, i: nat, g: File)
    requires Delivered(d) && i in d.files
    requires (g.data == d.files[i].data && (d.files[i].clean ==> g.clean)) || forall n :: n in d.finals ==> d.finals[n] != i
    ensures StillDelivered(d, SetFile(d, i, g))
  {
    hide Blocks;
    var e := SetFile(d, i, g);
    forall k, n | k in e.parts && n in e.finals && e.parts[k] == e.finals[n] ensures SharedIsComplete(e, k) {
      assert SharedIsComplete(d, k);
    }
  }

  lemma NewInodeDelivered(d: Disk, key: Key)
    requires NamesOk(d) && Delivered(d) && key !in d.parts
    ensures StillDelivered(d, NewInode(d, key))
  {
    var e := NewInode(d, key);
    forall k, n | k in e.parts && n in e.finals && e.parts[k] == e.finals[n] ensures SharedIsComplete(e, k) {
      assert SharedIsComplete(d, k);
    }
  }

  /** A saved journal still claims every shared file whole. */
  lemma SaveDelivered(d: Disk, e: Disk, j: Journal, fault: JournalFault)
    requires StillDelivered(d, e)
    requires j.transferId !in e.journals || (e.journals[j.transferId].Whole? && |e.journals[j.transferId].j.files| == |j.files|)
    requires j.transferId in e.journals ==>
               forall f :: 0 <= f < |j.files| ==>
                 var prior := e.journals[j.transferId].j.files[f];
                 prior == j.files[f] || prior.committed != prior.entry.blocks
    ensures AllDelivered(d, SaveJournal(e, j, fault))
  {
    hide Valid;
    var saved := e.(journals := e.journals[j.transferId := Whole(j)], temp := None);
    assert Delivered(saved) by {
      forall k, n | k in saved.parts && n in saved.finals && saved.parts[k] == saved.finals[n]
        ensures SharedIsComplete(saved, k)
      {
        assert SharedIsComplete(e, k);
      }
    }
    forall t ensures Delivered(e.(temp := t)) { TempDelivered(e, t); }
    hide Delivered;
  }

  lemma TempDelivered(e: Disk, t: Option<Temp>)
    requires Delivered(e)
    ensures Delivered(e.(temp := t))
  {
    forall k, n | k in e.parts && n in e.finals && e.parts[k] == e.finals[n]
      ensures SharedIsComplete(e.(temp := t), k)
    {
      assert SharedIsComplete(e, k);
    }
  }

  lemma PrepareDelivered(d: Disk, s: Session, raw: Manifest, root: nat, now: int, fault: JournalFault)
    requires Delivered(d)
    ensures AllDelivered(d, Prepare(d, s, raw, root, now, fault).call)
  {
    hide Delivered, Prepare, AllDelivered, SafePath.Validate, SaveJournal, New, AuthorizedFor, KeepsTerms;
    assert StillDelivered(d, d) by { SameDelivered(d, d); }
    OneDelivered(d, d, false);
    OneDelivered(d, d, true);
    PrepareShape(d, s, raw, root, now, fault);
    var v := SafePath.Validate(raw);
    if v.Some? && New(v.value, root, now).Some? && LoadJournal(d, v.value.transferId) == Missing {
      SaveDelivered(d, d, New(v.value, root, now).value, fault);
    }
  }

  lemma NegotiateDelivered(q: set<Id>, d: Disk, s: Session, raw: Manifest, secret: nat, fault: JournalFault)
    requires Delivered(d) && SessionOk(q, d, s)
    ensures AllDelivered(d, Negotiate(d, s, raw, secret, fault).call)
  {
    hide Delivered, AllDelivered, SafePath.Validate, SaveJournal, ResumeStateFor, SinkOk, SeedOk, Valid;
    assert StillDelivered(d, d) by { SameDelivered(d, d); }
    OneDelivered(d, d, false);
    OneDelivered(d, d, true);
    if s.journal.Some? { SaveDelivered(d, d, s.journal.value.(secret := Some(secret)), fault); }
  }

  /** The partial of an incomplete file is not a final file. */
  lemma NotFinal(d: Disk, id: Id, f: nat)
    requires Delivered(d) && Key(id, f) in d.parts && id in d.journals && d.journals[id].Whole?
    requires f < |d.journals[id].j.files| ==> d.journals[id].j.files[f].committed != d.journals[id].j.files[f].entry.blocks
    ensures forall n :: n in d.finals ==> d.finals[n] != d.parts[Key(id, f)]
  {}

  lemma OpenDelivered(q: set<Id>, d: Disk, s: Session, f: nat)
    requires DiskOk(q, d) && SessionOk(q, d, s) && Delivered(d)
    ensures AllDelivered(d, OpenPart(d, s, f).call)
  {
    hide DiskOk, SessionOk, Delivered, AllDelivered, CommittedBytes, NamesOk, JournalOk, Backed, FileStateOk, Valid;
    assert StillDelivered(d, d) by { SameDelivered(d, d); }
    OneDelivered(d, d, false);
    if && s.flags.prepared && s.journal.Some? && s.seeds.Some?
       && f < |s.journal.value.files| && f < |s.seeds.value| && f !in s.sinks {
      SessionJournal(q, d, s);
      DiskNames(q, d);
      var j := s.journal.value;
      var key, part, claim := Key(j.transferId, f), PartOf(d, j.transferId, f), CommittedBytes(j.files[f]);
      if part.Some? && FileOk(part.value) && 0 <= claim <= |part.value.data| {
        TruncateDelivered(d, j, f);
        OneDelivered(d, SetFile(d, d.parts[key], Truncate(part.value, claim)), true);
      } else if key !in d.parts {
        NewInodeDelivered(d, key);
        OneDelivered(d, NewInode(d, key), true);
      }
    }
  }

  /** Truncating a shared partial to its checkpoint changes nothing. */
  lemma TruncateDelivered(d: Disk, j: Journal, f: nat)
    requires Delivered(d) && j.transferId in d.journals && d.journals[j.transferId] == Whole(j)
    requires f < |j.files| && FileStateOk(j.files[f], f, j.files[0].entry.blockSize)
    requires PartOf(d, j.transferId, f).Some? && FileOk(PartOf(d, j.transferId, f).value)
    requires 0 <= CommittedBytes(j.files[f]) <= |PartOf(d, j.transferId, f).value.data|
    ensures var part := PartOf(d, j.transferId, f).value;
            StillDelivered(d, SetFile(d, d.parts[Key(j.transferId, f)], Truncate(part, CommittedBytes(j.files[f]))))
  {
    hide CommittedBytes, Blocks, Pos;
    var key, s := Key(j.transferId, f), j.files[f];
    var i := d.parts[key];
    ClaimPos(j, f);
    BlockCountBound(s.entry.size, s.entry.blockSize);
    if n :| n in d.finals && d.finals[n] == i { assert SharedIsComplete(d, key); }
    hide Delivered;
    SetFileDelivered(d, i, Truncate(d.files[i], CommittedBytes(s)));
  }

  lemma FinishDelivered(d: Disk, s: Session, f: nat, syncOk: bool)
    requires Delivered(d)
    ensures AllDelivered(d, FinishFile(d, s, f, syncOk).call)
  {
    hide Delivered, AllDelivered;
    assert StillDelivered(d, d) by { SameDelivered(d, d); }
    OneDelivered(d, d, false);
    if f in s.sinks && s.sinks[f].inode in d.files {
      var i := s.sinks[f].inode;
      SetFileDelivered(d, i, Sync(d.files[i]));
      OneDelivered(d, SetFile(d, i, Sync(d.files[i])), true);
    }
  }

  // ---------------------------------------------------------------- block writes

  lemma ThenDelivered(d: Disk, e: Disk, c: Call)
    requires StillDelivered(d, e) && AllDelivered(d, c)
    ensures AllDelivered(d, Then(Call([], e, true), c))
  {
    hide StillDelivered;
    SeenThen(Call([], e, true), c);
  }

  lemma SinkNotFinal(q: set<Id>, d: Disk, s: Session, f: nat, bytes: seq<byte>)
    requires Writable(q, d, s, f, bytes) && Delivered(d)
    ensures forall n :: n in d.finals ==> d.finals[n] != s.sinks[f].inode
  {
    hide DiskOk, SessionOk, Delivered, JournalOk, BlockLength, Pos, Blocks, Valid, Backed;
    WritableFacts(q, d, s, f, bytes);
    NotFinal(d, s.journal.value.transferId, f);
  }

  lemma CommitDelivered(q: set<Id>, d: Disk, e: Disk, s: Session, f: nat, bytes: seq<byte>,
      stateful: bool, now: int, fault: WriteFault)
    requires Writable(q, d, s, f, bytes) && DiskOk(q, e) && StillDelivered(d, e)
    requires e == SetFile(d, s.sinks[f].inode, File(s.sinks[f].digest + bytes, |s.sinks[f].digest + bytes|, true, true))
    ensures AllDelivered(d, CommitBlock(e, s, f, bytes, stateful, now, fault).call)
  {
    hide DiskOk, SessionOk, JournalOk, SaveJournal, Record, StillDelivered, AllDelivered, NextJournal, BlockLength,
      SinkOk, Pos, Blocks, Valid, NamesOk;
    WritableFacts(q, d, s, f, bytes);
    RecordBacked(q, d, e, s, f, bytes, stateful, now);
    NextJournalShape(s, f, bytes, stateful, now);
    OneDelivered(d, e, false);
    assert s.journal.value.files[f].committed == s.sinks[f].next by { SinkCommitted(q, d, s, f); }
    SaveDelivered(d, e, NextJournal(s, f, bytes, stateful, now), if fault.JournalFails? then fault.at else NoFault);
  }

  lemma SinkCommitted(q: set<Id>, d: Disk, s: Session, f: nat)
    requires s.journal.Some? && f in s.sinks && SinkOk(q, d, s.journal.value, f, s.sinks[f])
    ensures s.journal.value.files[f].committed == s.sinks[f].next
  {}

  lemma WriteDelivered(q: set<Id>, d: Disk, s: Session, f: nat, bytes: seq<byte>, stateful: bool,
      now: int, fault: WriteFault)
    requires DiskOk(q, d) && SessionOk(q, d, s) && Delivered(d) && Honest(q, s, OpWrite(f, bytes, stateful, now, fault))
    ensures AllDelivered(d, WriteBlock(d, s, f, bytes, stateful, now, fault).call)
  {
    hide DiskOk, SessionOk, Delivered, BlockLength, CommitBlock, SinkOk, JournalOk, Sync, WriteAt, AllDelivered,
      Then, StillDelivered;
    assert StillDelivered(d, d) by { SameDelivered(d, d); }
    OneDelivered(d, d, false);
    var r := WriteBlock(d, s, f, bytes, stateful, now, fault);
    if !s.flags.closed && f in s.sinks && !s.sinks[f].finished && s.journal.Some? && f < |s.journal.value.files| {
      var k, e := s.sinks[f], s.journal.value.files[f].entry;
      if && k.inode in d.files && FileOk(d.files[k.inode])
         && k.next < e.blocks && |bytes| == BlockLength(e, k.next) && e.blockSize >= 0 {
        WritableFacts(q, d, s, f, bytes);
        SinkNotFinal(q, d, s, f, bytes);
        assert d.files[k.inode].data == k.digest by { SinkData(q, d, s, f); }
        WriteKeeps(q, d, s, f, bytes);
        var n := if fault.ShortWrite? then Min(fault.n, |bytes|) else |bytes|;
        assert bytes[..|bytes|] == bytes;
        var g := WriteAt(d.files[k.inode], |k.digest|, bytes[..n]);
        var written, synced := SetFile(d, k.inode, g), SetFile(d, k.inode, Sync(g));
        SetFileDelivered(d, k.inode, g);
        OneDelivered(d, written, false);
        if !fault.ShortWrite? && !fault.SyncFails? {
          assert Sync(g) == File(k.digest + bytes, |k.digest + bytes|, true, true) by { SyncIs(g); }
          SetFileDelivered(d, k.inode, Sync(g));
          CommitDelivered(q, d, synced, s, f, bytes, stateful, now, fault);
          var c := CommitBlock(synced, s, f, bytes, stateful, now, fault);
          ThenDelivered(d, synced, c.call);
          ThenDelivered(d, written, Then(Call([], synced, true), c.call));
        }
      }
    }
  }

  // ---------------------------------------------------------------- promotion

  /** The files `[n, ...)` of `j` are complete, durable and still at their partial paths. */
  predicate Waiting(d: Disk, j: Journal, n: nat) {
    && j.transferId in d.journals && d.journals[j.transferId] == Whole(j)
    && (forall f :: n <= f < |j.files| ==>
          && j.files[f].committed == j.files[f].entry.blocks
          && Key(j.transferId, f) in d.parts && d.parts[Key(j.transferId, f)] in d.files
          && d.files[d.parts[Key(j.transferId, f)]].clean
          && |d.files[d.parts[Key(j.transferId, f)]].data| == j.files[f].entry.size)
    && (forall f :: 0 <= f < n && f < |j.files| ==> Key(j.transferId, f) !in d.parts)
  }

  function Linked(d: Disk, key: Key, name: seq<byte>): Disk
    requires key in d.parts
  {
    d.(finals := d.finals[name := d.parts[key]])
  }

  lemma LinkDelivered(d: Disk, j: Journal, f: nat)
    requires NamesOk(d) && Delivered(d) && Waiting(d, j, f) && f < |j.files| && j.files[f].entry.name !in d.finals
    ensures var linked := Linked(d, Key(j.transferId, f), j.files[f].entry.name);
            && StillDelivered(d, linked) && StillDelivered(d, linked.(parts := linked.parts - {Key(j.transferId, f)}))
            && Waiting(linked.(parts := linked.parts - {Key(j.transferId, f)}), j, f + 1)
  {
    var key := Key(j.transferId, f);
    var linked := Linked(d, key, j.files[f].entry.name);
    var moved := linked.(parts := linked.parts - {key});
    forall k, n | k in linked.parts && n in linked.finals && linked.parts[k] == linked.finals[n]
      ensures SharedIsComplete(linked, k) && (k in moved.parts ==> SharedIsComplete(moved, k))
    {
      if k != key { assert SharedIsComplete(d, k); }
    }
  }

  lemma {:induction false} PromoteDelivered(q: set<Id>, d: Disk, j: Journal, n: nat, modes: seq<PromoteMode>)
    requires DiskOk(q, d) && Delivered(d) && Waiting(d, j, 0) && n <= |j.files|
    ensures var c := PromoteAll(d, j, n, modes);
            && AllDelivered(d, c) && DiskOk(q, c.disk) && (c.ok ==> Waiting(c.disk, j, n))
  {
    hide DiskOk, Delivered, Waiting, FinalsKept;
    assert Waiting(d, j, 0) ==> j.transferId in d.journals && d.journals[j.transferId] == Whole(j) by {
      WaitingJournal(d, j, 0);
    }
    PromoteAllOk(q, d, j, n, modes);
    if n == 0 {
      assert StillDelivered(d, d) by { SameDelivered(d, d); }
    } else {
      PromoteDelivered(q, d, j, n - 1, modes);
      var before := PromoteAll(d, j, n - 1, modes);
      assert before.disk == Seen(before)[|before.trace|];
      if before.ok {
        var key, name := Key(j.transferId, n - 1), j.files[n - 1].entry.name;
        DiskNames(q, before.disk);
        if name !in before.disk.finals { LinkDelivered(before.disk, j, n - 1); }
        StepDelivered(d, before.disk, key, name, ModeAt(modes, n - 1));
        SeenThen(before, Promote(before.disk, key, name, ModeAt(modes, n - 1)));
      }
    }
  }

  lemma WaitingJournal(d: Disk, j: Journal, n: nat)
    requires Waiting(d, j, n)
    ensures j.transferId in d.journals && d.journals[j.transferId] == Whole(j)
  {}

  lemma KeptTwice(d: Disk, e: Disk, g: Disk)
    requires FinalsKept(d, e) && FinalsKept(e, g)
    ensures FinalsKept(d, g)
  {}

  lemma StepDelivered(d: Disk, e: Disk, key: Key, name: seq<byte>, mode: PromoteMode)
    requires StillDelivered(d, e)
    requires key in e.parts && name !in e.finals ==>
               StillDelivered(e, Linked(e, key, name)) && StillDelivered(e, Linked(e, key, name).(parts := e.parts - {key}))
    ensures AllDelivered(d, Promote(e, key, name, mode))
  {
    hide Delivered, FinalsKept;
    if key in e.parts && name !in e.finals {
      KeptTwice(d, e, Linked(e, key, name));
      KeptTwice(d, e, Linked(e, key, name).(parts := e.parts - {key}));
    }
  }

  /** Dropping the journal of a transfer all of whose files were promoted. */
  lemma DropDelivered(d: Disk, e: Disk, j: Journal)
    requires StillDelivered(d, e) && Waiting(e, j, |j.files|)
    ensures AllDelivered(d, DiscardCall(e, j.transferId))
  {
    var bare := e.(journals := e.journals - {j.transferId});
    var gone := RemoveParts(bare, j.transferId);
    forall k, n | k in e.parts && n in e.finals && e.parts[k] == e.finals[n]
      ensures SharedIsComplete(bare, k) && (k in gone.parts ==> SharedIsComplete(gone, k))
    {
      assert SharedIsComplete(e, k);
    }
    assert StillDelivered(d, bare) && StillDelivered(d, gone);
    hide StillDelivered;
  }

  /** A whole discard takes the partial names with the journal. */
  lemma DiscardDelivered(d: Disk, id: Id)
    requires Delivered(d)
    ensures StillDelivered(d, DiscardCall(d, id).disk)
  {
    var gone := DiscardCall(d, id).disk;
    forall k, n | k in gone.parts && n in gone.finals && gone.parts[k] == gone.finals[n]
      ensures SharedIsComplete(gone, k)
    {
      assert SharedIsComplete(d, k);
    }
  }

  lemma AllWaiting(q: set<Id>, d: Disk, s: Session)
    requires DiskOk(q, d) && SessionOk(q, d, s) && AllFinished(s)
    ensures Waiting(d, s.journal.value, 0)
  {
    hide Valid, Pos, Blocks, DiskOk;
    var j := s.journal.value;
    forall f | 0 <= f < |j.files|
      ensures Key(j.transferId, f) in d.parts && d.parts[Key(j.transferId, f)] in d.files
      ensures d.files[d.parts[Key(j.transferId, f)]].clean && j.files[f].committed == j.files[f].entry.blocks
      ensures |d.files[d.parts[Key(j.transferId, f)]].data| == j.files[f].entry.size
    {
      assert SinkOk(q, d, j, f, s.sinks[f]);
      BlockCountBound(j.files[f].entry.size, j.files[f].entry.blockSize);
    }
  }

  lemma CloseDelivered(q: set<Id>, d: Disk, s: Session, modes: seq<PromoteMode>)
    requires DiskOk(q, d) && SessionOk(q, d, s) && Delivered(d)
    ensures AllDelivered(d, Close(d, s, modes).call)
  {
    hide DiskOk, SessionOk, Delivered, Waiting, FinalsKept, PromoteAll, DiscardCall, AllFinished;
    assert StillDelivered(d, d) by { SameDelivered(d, d); }
    if !s.flags.closed && AllFinished(s) {
      Finished(s);
      AllWaiting(q, d, s);
      var j := s.journal.value;
      PromoteDelivered(q, d, j, |j.files|, modes);
      var p := PromoteAll(d, j, |j.files|, modes);
      assert p.disk == Seen(p)[|p.trace|];
      if p.ok {
        DropDelivered(d, p.disk, j);
        SeenThen(p, DiscardCall(p.disk, j.transferId));
      }
    }
  }

  // ---------------------------------------------------------------- whole runs

  lemma PerformDelivered(q: set<Id>, root: nat, d: Disk, s: Session, op: Op)
    requires DiskOk(q, d) && (Idle(s) || SessionOk(q, d, s)) && Honest(q, s, op) && Delivered(d)
    ensures AllDelivered(d, Perform(root, d, s, op).call)
  {
    hide DiskOk, SessionOk, Delivered, FinalsKept, Prepare, Negotiate, OpenPart, WriteBlock, FinishFile, Close, Honest;
    assert StillDelivered(d, d) by { SameDelivered(d, d); }
    if !Idle(s) {
      match op {
        case OpPrepare(m, now, fault) => PrepareDelivered(d, s, m, root, now, fault);
        case OpNegotiate(m, secret, fault) => NegotiateDelivered(q, d, s, m, secret, fault);
        case OpOpen(f) => OpenDelivered(q, d, s, f);
        case OpWrite(f, bytes, stateful, now, fault) => WriteDelivered(q, d, s, f, bytes, stateful, now, fault);
        case OpFinish(f, syncOk) => FinishDelivered(d, s, f, syncOk);
        case OpClose(modes) => CloseDelivered(q, d, s, modes);
      }
    }
  }

  lemma CrashDelivered(q: set<Id>, d: Disk, e: Disk, found: Disk)
    requires DiskOk(q, e) && StillDelivered(d, e) && Survives(e, found)
    ensures StillDelivered(d, found)
  {
    hide Valid, Backed;
    forall k, n | k in found.parts && n in found.finals && found.parts[k] == found.finals[n]
      ensures SharedIsComplete(found, k)
    {
      assert SharedIsComplete(e, k);
      assert JournalOk(q, e, k.id, e.journals[k.id]);
      assert FileSurvives(e.files[e.parts[k]], found.files[e.parts[k]]);
    }
  }

  lemma ApplyDelivered(q: set<Id>, root: nat, h: Host, e: Event)
    requires HostOk(q, h) && HonestEvent(q, h, e) && Delivered(h.disk) && Harmless(h, e)
    ensures StillDelivered(h.disk, Apply(root, h, e).disk)
  {
    hide DiskOk, SessionOk, Delivered, FinalsKept, Perform, Survives, DiscardCall, Honest;
    assert StillDelivered(h.disk, h.disk) by { SameDelivered(h.disk, h.disk); }
    match e {
      case Do(op) =>
        if h.session.Some? {
          PerformDelivered(q, root, h.disk, h.session.value, op);
          var c := Perform(root, h.disk, h.session.value, op).call;
          assert c.disk == Seen(c)[|c.trace|];
        }
      case CrashDuring(op, at, found) =>
        if h.session.Some? {
          PerformDelivered(q, root, h.disk, h.session.value, op);
          PerformOk(q, root, h.disk, h.session.value, op);
          var seen := Seen(Perform(root, h.disk, h.session.value, op).call);
          if at < |seen| && Survives(seen[at], found) { CrashDelivered(q, h.disk, seen[at], found); }
        }
      case Crash(found) => if Survives(h.disk, found) { CrashDelivered(q, h.disk, h.disk, found); }
      case Discard(id) => DiscardDelivered(h.disk, id);
      case DiscardInterrupted(id) => CutDiscardDelivered(h.disk, id);
      case _ =>
    }
  }

  /** A store nobody has received into yet, next to whatever files the user already has, is a
      starting point for every result here. */
  lemma FreshStoreIsFine(q: set<Id>, d: Disk)
    requires d.parts == map[] && d.journals == map[]
    requires forall i :: i in d.files ==> i < d.next && FileOk(d.files[i])
    requires forall n :: n in d.finals ==> d.finals[n] in d.files && d.files[d.finals[n]].clean
    ensures DiskOk(q, d) && Delivered(d)
  {}

  /** Some partial of the transfer still shares its file with a final name. */
  predicate Shares(d: Disk, id: Id) {
    exists k, n :: k in d.parts && k.id == id && n in d.finals && d.parts[k] == d.finals[n]
  }

  /** A discard that is cut short leaves the store delivered exactly when no partial of the
      transfer shares its file with a final name. */
  lemma CutDiscardDelivered(d: Disk, id: Id)
    requires Delivered(d)
    ensures Delivered(DiscardCall(d, id).trace[0]) <==> !Shares(d, id)
    ensures FinalsKept(d, DiscardCall(d, id).trace[0])
  {
    var bare := DiscardCall(d, id).trace[0];
    assert bare == d.(journals := d.journals - {id});
    if !Shares(d, id) {
      forall k, n | k in bare.parts && n in bare.finals && bare.parts[k] == bare.finals[n]
        ensures SharedIsComplete(bare, k)
      {
        assert SharedIsComplete(d, k);
      }
    } else {
      var k, n :| k in d.parts && k.id == id && n in d.finals && d.parts[k] == d.finals[n];
      assert !SharedIsComplete(bare, k);
    }
  }

  /** A discard may be cut short only while nothing of its transfer is shared. */
  predicate Harmless(h: Host, e: Event) {
    e.DiscardInterrupted? && h.session == None ==> !Shares(h.disk, e.id)
  }

  predicate HarmlessRun(root: nat, start: Disk, es: seq<Event>) {
    es == [] ||
    (HarmlessRun(root, start, es[..|es| - 1]) && Harmless(Exec(root, start, es[..|es| - 1]), es[|es| - 1]))
  }

  lemma {:induction false} RunDelivered(root: nat, start: Disk, es: seq<Event>)
    requires DiskOk({}, start) && Delivered(start) && HarmlessRun(root, start, es)
    ensures Delivered(Exec(root, start, es).disk)
    decreases |es|
  {
    hide DiskOk, Delivered, FinalsKept, Apply, HostOk, HonestEvent, Harmless;
    if es != [] {
      var init, e := es[..|es| - 1], es[|es| - 1];
      RunDelivered(root, start, init);
      NoTrustNeeded(root, start, es);
      ReachableOk({}, root, start, init);
      ApplyDelivered({}, root, Exec(root, start, init), e);
    }
  }

  /** As long as no discard is cut short while something of its transfer is shared, every file
      that was ever under a final name, found there at the start or promoted since, keeps its
      name and its bytes for good. */
  lemma {:induction false} FinalsNeverChange(root: nat, start: Disk, es: seq<Event>, more: seq<Event>)
    requires DiskOk({}, start) && Delivered(start) && HarmlessRun(root, start, es + more)
    ensures HarmlessRun(root, start, es)
    ensures FinalsKept(Exec(root, start, es).disk, Exec(root, start, es + more).disk)
    decreases |more|
  {
    hide DiskOk, Delivered, FinalsKept, Apply, HostOk, HonestEvent, Harmless;
    if more == [] {
      assert es + more == es;
      RunDelivered(root, start, es);
      SameDelivered(Exec(root, start, es).disk, Exec(root, start, es).disk);
    } else {
      var init, e := more[..|more| - 1], more[|more| - 1];
      assert (es + more)[..|es + more| - 1] == es + init && (es + more)[|es + more| - 1] == e;
      FinalsNeverChange(root, start, es, init);
      RunDelivered(root, start, es + init);
      NoTrustNeeded(root, start, es + more);
      ReachableOk({}, root, start, es + init);
      ApplyDelivered({}, root, Exec(root, start, es + init), e);
      KeptTwice(Exec(root, start, es).disk, Exec(root, start, es + init).disk, Exec(root, start, es + more).disk);
    }
  }
}
