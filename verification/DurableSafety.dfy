/** What the disk guarantees at every moment a crash could fall: each journal is whole, and
    claims no more than the synced prefix of its partial. */
module DurableSafety {
  import opened Wire
  import opened Geometry
  import opened Journals
  import opened Storage
  import opened Durable
  import SafePath

  // ---------------------------------------------------------------- invariant

  /** A claim is backed by the durable prefix of the partial, and a digest checkpoint is the
      digest of exactly that prefix. A partial can only be gone because it was promoted. For
      the transfers in `q`, whose senders stream the very bytes their manifest was computed
      over, the prefix is a prefix of the source. */
  predicate Backed(q: set<Id>, d: Disk, id: Id, f: nat, s: FileState) {
    s.committed > 0 && Shaped(s.entry) ==>
      match PartOf(d, id, f)
      case Some(part) =>
        && 0 <= CommittedBytes(s) <= part.safe <= |part.data| && part.anchored
        && (s.checkpoint.Some? && s.checkpoint.value.native ==> s.checkpoint.value.state == part.data[..CommittedBytes(s)])
        && (id in q ==> part.data[..CommittedBytes(s)] <= s.entry.digest.pre)
      case None => s.entry.name in d.finals
  }

  /** The manifest's sizes are those of the byte strings it was computed over. */
  predicate SourceSized(j: Journal) {
    forall f :: 0 <= f < |j.files| ==> |j.files[f].entry.digest.pre| == j.files[f].entry.size
  }

  /** No file of a journaled transfer claims the storage directory. */
  predicate NoClash(files: seq<FileEntry>) {
    forall i :: 0 <= i < |files| ==> !Collides(files[i].name)
  }

  predicate JournalOk(q: set<Id>, d: Disk, id: Id, slot: Slot) {
    && slot.Whole? && Valid(slot.j) && slot.j.transferId == id
    && (id in q ==> SourceSized(slot.j)) && NoClash(slot.j.fingerprint.manifest.files)
    && (forall f :: 0 <= f < |slot.j.files| ==> Backed(q, d, id, f, slot.j.files[f]))
  }

  predicate NamesOk(d: Disk) {
    && (forall i :: i in d.files ==> i < d.next && FileOk(d.files[i]))
    && (forall k :: k in d.parts ==> d.parts[k] in d.files)
    && (forall n :: n in d.finals ==> d.finals[n] in d.files)
    && (forall k, l :: k in d.parts && l in d.parts && k != l ==> d.parts[k] != d.parts[l])
  }

  predicate DiskOk(q: set<Id>, d: Disk) {
    && NamesOk(d)
    && (forall id :: id in d.journals ==> JournalOk(q, d, id, d.journals[id]))
  }

  predicate AllOk(q: set<Id>, ds: seq<Disk>) { forall i :: 0 <= i < |ds| ==> DiskOk(q, ds[i]) }

  /** An open file holds exactly the committed blocks and the digest has been fed them. */
  predicate SinkOk(q: set<Id>, d: Disk, j: Journal, f: nat, k: Sink) {
    && f < |j.files| && Shaped(j.files[f].entry)
    && Key(j.transferId, f) in d.parts && d.parts[Key(j.transferId, f)] == k.inode && k.inode in d.files
    && j.files[f].committed == k.next <= j.files[f].entry.blocks
    && var file := d.files[k.inode];
       && file.data == k.digest && file.safe == |file.data|
       && |file.data| == Pos(j.files[f].entry.size, j.files[f].entry.blockSize, k.next)
       && (k.next > 0 ==> file.anchored)
       && (j.transferId in q ==> file.data <= j.files[f].entry.digest.pre)
       && (k.finished ==> file.clean && k.next == j.files[f].entry.blocks && Sha(file.data) == j.files[f].entry.digest)
  }

  /** What was advertised for a file that is not open yet. */
  predicate SeedOk(d: Disk, j: Journal, f: nat, seed: Seed) {
    && f < |j.files|
    && seed.haveBlocks == j.files[f].committed
    && (if seed.haveBlocks == 0 then seed.digest == []
        else
          && PartOf(d, j.transferId, f).Some?
          && 0 <= CommittedBytes(j.files[f]) <= |PartOf(d, j.transferId, f).value.data|
          && seed.digest == PartOf(d, j.transferId, f).value.data[..CommittedBytes(j.files[f])])
  }

  /** A session that is still running: its journal is the one on disk. */
  predicate SessionOk(q: set<Id>, d: Disk, s: Session) {
    && (s.journal.Some? ==>
          var j := s.journal.value;
          && Valid(j) && j.transferId in d.journals && d.journals[j.transferId] == Whole(j)
          && (forall f :: f in s.sinks ==> SinkOk(q, d, j, f, s.sinks[f]))
          && (s.seeds.Some? ==>
                && |s.seeds.value| == |j.files|
                && (forall f :: 0 <= f < |j.files| && f !in s.sinks ==> SeedOk(d, j, f, s.seeds.value[f]))))
    && (s.journal == None ==> s.sinks == map[] && s.seeds == None)
    && (s.seeds == None ==> s.sinks == map[])
    && (s.journal.Some? ==> s.flags.prepared)
  }

  predicate Idle(s: Session) { s.flags.stopped || s.flags.closed }

  predicate ResultOk(q: set<Id>, r: Result) {
    && AllOk(q, Seen(r.call))
    && (Idle(r.session) || SessionOk(q, r.call.disk, r.session))
  }

  predicate HostOk(q: set<Id>, h: Host) {
    && DiskOk(q, h.disk)
    && (h.session.Some? ==> Idle(h.session.value) || SessionOk(q, h.disk, h.session.value))
  }

  // ---------------------------------------------------------------- changing one file

  /** No journal claims more than `n` bytes of inode `i`. */
  predicate ClaimsWithin(d: Disk, i: nat, n: nat) {
    forall id, f :: id in d.journals && d.journals[id].Whole? && 0 <= f < |d.journals[id].j.files|
                    && Key(id, f) in d.parts && d.parts[Key(id, f)] == i && d.journals[id].j.files[f].committed > 0 ==>
      CommittedBytes(d.journals[id].j.files[f]) <= n
  }

  /** Changing a file beyond what is claimed of it keeps every claim backed. */
  lemma SetFileKeeps(q: set<Id>, d: Disk, i: nat, g: File, n: nat)
    requires DiskOk(q, d) && i in d.files && ClaimsWithin(d, i, n)
    requires FileOk(g) && n <= g.safe && n <= |d.files[i].data| && g.data[..n] == d.files[i].data[..n]
    requires d.files[i].anchored ==> g.anchored
    ensures DiskOk(q, SetFile(d, i, g))
  {
    hide Valid, CommittedBytes, Blocks;
    var e := SetFile(d, i, g);
    forall id | id in e.journals ensures JournalOk(q, e, id, e.journals[id]) {
      var j := d.journals[id].j;
      assert JournalOk(q, d, id, d.journals[id]);
      forall f | 0 <= f < |j.files| ensures Backed(q, e, id, f, j.files[f]) {
        assert Backed(q, d, id, f, j.files[f]);
        if j.files[f].committed > 0 && Shaped(j.files[f].entry) && Key(id, f) in d.parts && d.parts[Key(id, f)] == i {
          var c := CommittedBytes(j.files[f]);
          assert g.data[..c] == g.data[..n][..c];
          assert d.files[i].data[..c] == d.files[i].data[..n][..c];
        }
      }
    }
  }

  /** The journal of `id` is the only one that can claim a partial of `id`. */
  lemma OwnClaim(q: set<Id>, d: Disk, j: Journal, f: nat, n: nat)
    requires DiskOk(q, d) && j.transferId in d.journals && d.journals[j.transferId] == Whole(j) && f < |j.files|
    requires Key(j.transferId, f) in d.parts && (j.files[f].committed > 0 ==> CommittedBytes(j.files[f]) <= n)
    ensures ClaimsWithin(d, d.parts[Key(j.transferId, f)], n)
  {
    hide CommittedBytes, JournalOk;
  }

  lemma NewInodeKeeps(q: set<Id>, d: Disk, k: Key)
    requires DiskOk(q, d) && k !in d.parts
    requires k.id in d.journals && d.journals[k.id].Whole? && k.f < |d.journals[k.id].j.files|
             && d.journals[k.id].j.files[k.f].committed == 0
    ensures DiskOk(q, NewInode(d, k))
  {
    hide Valid, CommittedBytes, Blocks;
    var e := NewInode(d, k);
    forall id | id in e.journals ensures JournalOk(q, e, id, e.journals[id]) {
      var j := d.journals[id].j;
      assert JournalOk(q, d, id, d.journals[id]);
      forall f | 0 <= f < |j.files| ensures Backed(q, e, id, f, j.files[f]) {
        assert Backed(q, d, id, f, j.files[f]);
      }
    }
  }

  // ---------------------------------------------------------------- journals

  /** Replacing a journal atomically: a crash finds the old or the new one. */
  lemma SaveKeeps(q: set<Id>, d: Disk, j: Journal, fault: JournalFault)
    requires DiskOk(q, d) && (Valid(j) ==> JournalOk(q, d, j.transferId, Whole(j)))
    ensures var c := SaveJournal(d, j, fault);
            && AllOk(q, Seen(c))
            && (c.ok ==> Valid(j) && c.disk == d.(journals := d.journals[j.transferId := Whole(j)], temp := None))
  {
    hide Valid, Backed;
    var c := SaveJournal(d, j, fault);
    if Valid(j) {
      assert OnlyTemp(d, d.(temp := Some(Temp(j, false)))) && OnlyTemp(d, d.(temp := Some(Temp(j, true))));
      assert OnlyTemp(d, d.(temp := None));
      TempKeeps(q, d, d.(temp := Some(Temp(j, false))));
      TempKeeps(q, d, d.(temp := Some(Temp(j, true))));
      TempKeeps(q, d, d.(temp := None));
      var e := d.(journals := d.journals[j.transferId := Whole(j)], temp := None);
      forall id | id in e.journals ensures JournalOk(q, e, id, e.journals[id]) {
        BackedSame(q, d, e, id, e.journals[id]);
      }
    }
  }

  predicate OnlyTemp(d: Disk, e: Disk) { e == d.(temp := e.temp) }

  lemma TempKeeps(q: set<Id>, d: Disk, e: Disk)
    requires DiskOk(q, d) && OnlyTemp(d, e)
    ensures DiskOk(q, e)
  {
    hide Valid, Backed;
    forall id | id in e.journals ensures JournalOk(q, e, id, e.journals[id]) {
      BackedSame(q, d, e, id, e.journals[id]);
    }
  }

  /** Backing depends only on the files, the partial names and the final names. */
  lemma BackedSame(q: set<Id>, d: Disk, e: Disk, id: Id, slot: Slot)
    requires e.files == d.files && e.parts == d.parts && e.finals == d.finals
    ensures JournalOk(q, d, id, slot) ==> JournalOk(q, e, id, slot)
  {
    hide Valid, CommittedBytes, Blocks;
    if JournalOk(q, d, id, slot) {
      forall f | 0 <= f < |slot.j.files| ensures Backed(q, e, id, f, slot.j.files[f]) {
        assert Backed(q, d, id, f, slot.j.files[f]);
      }
    }
  }

  // ---------------------------------------------------------------- crashes

  lemma CrashKeeps(q: set<Id>, d: Disk, e: Disk)
    requires DiskOk(q, d) && Survives(d, e)
    ensures DiskOk(q, e)
  {
    hide Valid, CommittedBytes, Blocks;
    forall id | id in e.journals ensures JournalOk(q, e, id, e.journals[id]) {
      assert JournalOk(q, d, id, d.journals[id]);
      var j := d.journals[id].j;
      forall f | 0 <= f < |j.files| ensures Backed(q, e, id, f, j.files[f]) {
        assert Backed(q, d, id, f, j.files[f]);
        CrashBacked(q, d, e, id, f, j.files[f]);
      }
    }
  }

  lemma CrashBacked(q: set<Id>, d: Disk, e: Disk, id: Id, f: nat, s: FileState)
    requires NamesOk(d) && Survives(d, e) && Backed(q, d, id, f, s)
    ensures Backed(q, e, id, f, s)
  {
    hide CommittedBytes, Blocks;
    if s.committed > 0 && Shaped(s.entry) && PartOf(d, id, f).Some? {
      var k := Key(id, f);
      var a, b, c := d.files[d.parts[k]], e.files[d.parts[k]], CommittedBytes(s);
      assert k in e.parts && FileSurvives(a, b);
      assert a.data[..c] == a.data[..a.safe][..c] && b.data[..c] == b.data[..a.safe][..c];
    }
  }

  // ---------------------------------------------------------------- honest senders

  /** For the transfers in `q`: manifests state the size of what their digests cover, and
      every block written is the next block of that source. */
  predicate Honest(q: set<Id>, s: Session, op: Op) {
    match op
    case OpPrepare(raw, _, _) =>
      SafePath.Validate(raw).Some? && SafePath.Validate(raw).value.transferId in q ==>
        var m := SafePath.Validate(raw).value;
        forall f :: 0 <= f < |m.files| ==> |m.files[f].digest.pre| == m.files[f].size
    case OpWrite(f, bytes, _, _, _) =>
      s.journal.Some? && f in s.sinks && f < |s.journal.value.files| ==> Streamed(q, s, f, bytes)
    case _ => true
  }

  predicate HonestEvent(q: set<Id>, h: Host, e: Event) {
    h.session.Some? && (e.Do? || e.CrashDuring?) ==> Honest(q, h.session.value, e.op)
  }

  predicate HonestRun(q: set<Id>, root: nat, start: Disk, es: seq<Event>) {
    es == [] ||
    (HonestRun(q, root, start, es[..|es| - 1]) && HonestEvent(q, Exec(root, start, es[..|es| - 1]), es[|es| - 1]))
  }

  lemma {:induction false} NoTrustNeeded(root: nat, start: Disk, es: seq<Event>)
    ensures HonestRun({}, root, start, es)
    decreases |es|
  {
    hide Exec;
    if es != [] { NoTrustNeeded(root, start, es[..|es| - 1]); }
  }

  // ---------------------------------------------------------------- calls

  lemma SeenThen(a: Call, b: Call)
    ensures Seen(Then(a, b)) == Seen(a) + Seen(b)
  {}

  lemma RefuseOk(q: set<Id>, d: Disk, s: Session)
    requires DiskOk(q, d)
    ensures ResultOk(q, Result(Refuse(d), Stop(s)))
  {
    hide DiskOk;
  }

  lemma PrepareOk(q: set<Id>, d: Disk, s: Session, raw: Manifest, root: nat, now: int, fault: JournalFault)
    requires DiskOk(q, d) && SessionOk(q, d, s) && Honest(q, s, OpPrepare(raw, now, fault))
    ensures ResultOk(q, Prepare(d, s, raw, root, now, fault))
  {
    hide DiskOk, SessionOk, ResultOk, SafePath.Validate, LoadJournal, CreateJournal, AdoptJournal;
    RefuseOk(q, d, s);
    RefuseOk(q, d, s.(flags := s.flags.(prepared := true)));
    if SafePath.Validate(raw).Some? && !s.flags.prepared {
      var m := SafePath.Validate(raw).value;
      Unprepared(q, d, s);
      if NoClash(m.files) { CreateOk(q, d, s.(flags := s.flags.(prepared := true)), m, root, now, fault); }
      if LoadJournal(d, m.transferId).Found? {
        AdoptOk(q, d, s.(flags := s.flags.(prepared := true)), m, root, LoadJournal(d, m.transferId).j);
      }
    }
  }

  lemma Unprepared(q: set<Id>, d: Disk, s: Session)
    requires SessionOk(q, d, s) && !s.flags.prepared
    ensures s.journal == None && s.sinks == map[] && s.seeds == None
  {}

  lemma CreateOk(q: set<Id>, d: Disk, s: Session, m: Manifest, root: nat, now: int, fault: JournalFault)
    requires DiskOk(q, d) && s.journal == None && s.sinks == map[] && s.seeds == None && s.flags.prepared
    requires m.transferId in q ==> forall f :: 0 <= f < |m.files| ==> |m.files[f].digest.pre| == m.files[f].size
    requires NoClash(m.files)
    ensures ResultOk(q, CreateJournal(d, s, m, root, now, fault))
  {
    hide DiskOk, Valid, SaveJournal;
    RefuseOk(q, d, s);
    if New(m, root, now).Some? {
      var j := New(m, root, now).value;
      SaveKeeps(q, d, j, fault);
      var c := SaveJournal(d, j, fault);
      assert c.disk == Seen(c)[|c.trace|];
    }
  }

  lemma AdoptOk(q: set<Id>, d: Disk, s: Session, m: Manifest, root: nat, j: Journal)
    requires DiskOk(q, d) && s.journal == None && s.sinks == map[] && s.seeds == None && s.flags.prepared
    requires LoadJournal(d, m.transferId) == Found(j)
    ensures ResultOk(q, AdoptJournal(d, s, m, root, j))
  {
    hide Valid, NamesOk, Backed;
    assert JournalOk(q, d, m.transferId, d.journals[m.transferId]);
    assert SessionOk(q, d, s.(journal := Some(j), resumed := true));
    hide DiskOk;
    RefuseOk(q, d, s);
  }

  lemma SeedForOk(q: set<Id>, d: Disk, j: Journal, f: nat)
    requires f < |j.files| && FileStateOk(j.files[f], f, j.files[0].entry.blockSize)
    requires Backed(q, d, j.transferId, f, j.files[f]) && SeedFor(d, j.transferId, f, j.files[f]).Some?
    ensures SeedOk(d, j, f, SeedFor(d, j.transferId, f, j.files[f]).value)
  {
    hide CommittedBytes, Blocks;
  }

  lemma {:induction false} SeedsForOk(q: set<Id>, d: Disk, j: Journal, n: nat)
    requires n <= |j.files| && SeedsFor(d, j, n).Some?
    requires forall f :: 0 <= f < |j.files| ==>
               && Backed(q, d, j.transferId, f, j.files[f])
               && FileStateOk(j.files[f], f, j.files[0].entry.blockSize)
    ensures |SeedsFor(d, j, n).value| == n
    ensures forall f :: 0 <= f < n ==> SeedOk(d, j, f, SeedsFor(d, j, n).value[f])
  {
    hide SeedOk, Backed, FileStateOk, SeedFor;
    if n > 0 {
      SeedsForOk(q, d, j, n - 1);
      SeedForOk(q, d, j, n - 1);
    }
  }

  lemma SessionJournal(q: set<Id>, d: Disk, s: Session)
    requires DiskOk(q, d) && SessionOk(q, d, s) && s.journal.Some?
    ensures var j := s.journal.value;
            && Valid(j) && j.transferId in d.journals && d.journals[j.transferId] == Whole(j)
            && JournalOk(q, d, j.transferId, Whole(j))
            && (forall f :: 0 <= f < |j.files| ==>
                  Backed(q, d, j.transferId, f, j.files[f]) && FileStateOk(j.files[f], f, j.files[0].entry.blockSize))
            && s.flags.prepared
  {
    hide NamesOk, Backed, SafePath.Validate, FileStateOk, SinkOk, SeedOk;
    assert JournalOk(q, d, s.journal.value.transferId, d.journals[s.journal.value.transferId]);
  }

  lemma ReseedOk(q: set<Id>, d: Disk, s: Session, seeds: seq<Seed>)
    requires SessionOk(q, d, s) && s.journal.Some? && |seeds| == |s.journal.value.files|
    requires forall f :: 0 <= f < |seeds| ==> SeedOk(d, s.journal.value, f, seeds[f])
    ensures SessionOk(q, d, s.(seeds := Some(seeds)))
  {
    hide Valid, SinkOk, SeedOk;
  }

  lemma NegotiateOk(q: set<Id>, d: Disk, s: Session, raw: Manifest, secret: nat, fault: JournalFault)
    requires DiskOk(q, d) && SessionOk(q, d, s)
    ensures ResultOk(q, Negotiate(d, s, raw, secret, fault))
  {
    hide DiskOk, SessionOk, ResultOk, SafePath.Validate, AttachSecret, JournalOk, Backed, FileStateOk, SeedOk, Valid,
      HasProgress, AuthorizedFor;
    RefuseOk(q, d, s);
    if SafePath.Validate(raw).Some? && ResumeStateFor(d, s, SafePath.Validate(raw).value).Some? {
      var m := SafePath.Validate(raw).value;
      var seeds := ResumeStateFor(d, s, m).value;
      SessionJournal(q, d, s);
      SeedsForOk(q, d, s.journal.value, |s.journal.value.files|);
      ReseedOk(q, d, s, seeds);
      AttachOk(q, d, s.(seeds := Some(seeds)), m, secret, fault);
    }
  }

  lemma AttachOk(q: set<Id>, d: Disk, s: Session, m: Manifest, secret: nat, fault: JournalFault)
    requires DiskOk(q, d) && SessionOk(q, d, s)
    ensures ResultOk(q, AttachSecret(d, s, m, secret, fault))
  {
    hide DiskOk, SessionOk, SaveJournal, Valid, Backed, FileStateOk;
    RefuseOk(q, d, s);
    if s.journal.Some? {
      SessionJournal(q, d, s);
      var j := s.journal.value.(secret := Some(secret));
      assert Valid(j) by { SecretKeepsValid(s.journal.value, secret); }
      SaveKeeps(q, d, j, fault);
      var c := SaveJournal(d, j, fault);
      assert c.disk == Seen(c)[|c.trace|];
      if c.ok {
        SaveSession(q, d, s, j);
      }
    }
  }

  lemma SecretKeepsValid(j: Journal, secret: nat)
    requires Valid(j)
    ensures Valid(j.(secret := Some(secret)))
  {
    hide FileStateOk, SafePath.Validate;
  }

  /** A saved journal with the same files serves the same session. */
  lemma SaveSession(q: set<Id>, d: Disk, s: Session, j: Journal)
    requires SessionOk(q, d, s) && s.journal.Some? && Valid(j)
    requires j.transferId == s.journal.value.transferId && j.files == s.journal.value.files
    ensures SessionOk(q, d.(journals := d.journals[j.transferId := Whole(j)], temp := None), s.(journal := Some(j)))
  {
    hide Valid, CommittedBytes, Blocks;
    var e := d.(journals := d.journals[j.transferId := Whole(j)], temp := None);
    forall f | f in s.sinks
      ensures SinkOk(q, e, j, f, s.sinks[f])
    {
      assert SinkOk(q, d, s.journal.value, f, s.sinks[f]);
    }
    if s.seeds.Some? {
      forall f | 0 <= f < |j.files| && f !in s.sinks ensures SeedOk(e, j, f, s.seeds.value[f]) {
        assert SeedOk(d, s.journal.value, f, s.seeds.value[f]);
      }
    }
  }

  // ---------------------------------------------------------------- opening

  /** Only the partial of file `f` of this transfer differs. */
  ghost predicate OnlyPart(d: Disk, e: Disk, id: Id, f: nat) {
    && e.journals == d.journals && e.finals == d.finals
    && (forall g :: g != f ==> PartOf(e, id, g) == PartOf(d, id, g))
    && (forall g :: g != f && Key(id, g) in d.parts ==> Key(id, g) in e.parts && e.parts[Key(id, g)] == d.parts[Key(id, g)])
  }

  lemma SinkSame(q: set<Id>, d: Disk, e: Disk, j: Journal, f: nat, k: Sink)
    requires SinkOk(q, d, j, f, k) && PartOf(e, j.transferId, f) == PartOf(d, j.transferId, f)
    requires Key(j.transferId, f) in e.parts && e.parts[Key(j.transferId, f)] == d.parts[Key(j.transferId, f)]
    ensures SinkOk(q, e, j, f, k)
  {}

  lemma OthersKeep(q: set<Id>, d: Disk, e: Disk, s: Session, f: nat, k: Sink)
    requires SessionOk(q, d, s) && s.journal.Some? && s.seeds.Some?
    requires OnlyPart(d, e, s.journal.value.transferId, f) && SinkOk(q, e, s.journal.value, f, k)
    ensures SessionOk(q, e, s.(sinks := s.sinks[f := k]))
  {
    hide Valid, CommittedBytes, Blocks, Pos, PartOf;
    var j, s1 := s.journal.value, s.(sinks := s.sinks[f := k]);
    forall g | g in s1.sinks ensures SinkOk(q, e, j, g, s1.sinks[g]) {
      if g != f {
        assert SinkOk(q, d, j, g, s.sinks[g]);
        assert PartOf(e, j.transferId, g) == PartOf(d, j.transferId, g);
        SinkSame(q, d, e, j, g, s.sinks[g]);
      }
    }
    forall g | 0 <= g < |j.files| && g !in s1.sinks ensures SeedOk(e, j, g, s1.seeds.value[g]) {
      assert SeedOk(d, j, g, s.seeds.value[g]);
      assert PartOf(e, j.transferId, g) == PartOf(d, j.transferId, g);
    }
  }

  lemma SetFileOnly(d: Disk, id: Id, f: nat, g: File)
    requires NamesOk(d) && Key(id, f) in d.parts
    ensures OnlyPart(d, SetFile(d, d.parts[Key(id, f)], g), id, f)
    ensures PartOf(SetFile(d, d.parts[Key(id, f)], g), id, f) == Some(g)
  {}

  lemma NewInodeOnly(d: Disk, id: Id, f: nat)
    requires NamesOk(d) && Key(id, f) !in d.parts
    ensures OnlyPart(d, NewInode(d, Key(id, f)), id, f)
  {}

  lemma ClaimPos(j: Journal, f: nat)
    requires f < |j.files| && FileStateOk(j.files[f], f, j.files[0].entry.blockSize)
    ensures var s := j.files[f];
            && Shaped(s.entry) && 0 <= s.committed
            && CommittedBytes(s) == Pos(s.entry.size, s.entry.blockSize, s.committed) >= 0
            && (s.committed > 0 ==> CommittedBytes(s) > 0)
            && (s.committed == 0 ==> CommittedBytes(s) == 0)
  {
    var s := j.files[f];
    CommittedBytesIsPos(s);
    if s.committed > 0 {
      BlockRange(s.entry.size, s.entry.blockSize, 0);
      PosMonotone(s.entry.size, s.entry.blockSize, 1, s.committed);
    }
  }

  lemma OpenFacts(q: set<Id>, d: Disk, s: Session, f: nat)
    requires DiskOk(q, d) && SessionOk(q, d, s) && s.journal.Some? && s.seeds.Some?
    requires f < |s.journal.value.files| && f !in s.sinks
    ensures NamesOk(d) && f < |s.seeds.value| && SeedOk(d, s.journal.value, f, s.seeds.value[f])
  {
    hide Valid, Backed, SinkOk, SeedOk, JournalOk;
  }

  /** The truncated partial is the committed prefix, and so is the seed. */
  lemma TruncateOk(q: set<Id>, d: Disk, s: Session, f: nat)
    requires DiskOk(q, d) && SessionOk(q, d, s) && s.journal.Some? && s.seeds.Some? && !Idle(s)
    requires f < |s.journal.value.files| && f < |s.seeds.value| && f !in s.sinks
    requires var j := s.journal.value;
             && PartOf(d, j.transferId, f).Some? && FileOk(PartOf(d, j.transferId, f).value)
             && 0 <= CommittedBytes(j.files[f]) <= |PartOf(d, j.transferId, f).value.data|
    ensures var j := s.journal.value;
            var e := SetFile(d, d.parts[Key(j.transferId, f)],
                             Truncate(PartOf(d, j.transferId, f).value, CommittedBytes(j.files[f])));
            DiskOk(q, e) && SessionOk(q, e, AddSink(s, f, d.parts[Key(j.transferId, f)]))
  {
    hide DiskOk, SessionOk, Valid, CommittedBytes, Blocks, Pos, JournalOk;
    SessionJournal(q, d, s);
    OpenFacts(q, d, s, f);
    var j := s.journal.value;
    var key, claim, part := Key(j.transferId, f), CommittedBytes(j.files[f]), PartOf(d, j.transferId, f).value;
    ClaimPos(j, f);
    var g := Truncate(part, claim);
    OwnClaim(q, d, j, f, claim);
    SetFileKeeps(q, d, d.parts[key], g, claim);
    SetFileOnly(d, j.transferId, f, g);
    OthersKeep(q, d, SetFile(d, d.parts[key], g), s, f, AddSink(s, f, d.parts[key]).sinks[f]);
  }

  lemma FreshPartOk(q: set<Id>, d: Disk, s: Session, f: nat)
    requires DiskOk(q, d) && SessionOk(q, d, s) && s.journal.Some? && s.seeds.Some? && !Idle(s)
    requires f < |s.journal.value.files| && f < |s.seeds.value| && f !in s.sinks
    requires Key(s.journal.value.transferId, f) !in d.parts
    ensures var e := NewInode(d, Key(s.journal.value.transferId, f));
            DiskOk(q, e) && SessionOk(q, e, AddSink(s, f, d.next))
  {
    hide DiskOk, SessionOk, Valid, CommittedBytes, Blocks, Pos, JournalOk;
    SessionJournal(q, d, s);
    OpenFacts(q, d, s, f);
    var j := s.journal.value;
    var key := Key(j.transferId, f);
    ClaimPos(j, f);
    NewInodeKeeps(q, d, key);
    NewInodeOnly(d, j.transferId, f);
    OthersKeep(q, d, NewInode(d, key), s, f, AddSink(s, f, d.next).sinks[f]);
  }

  lemma OpenOk(q: set<Id>, d: Disk, s: Session, f: nat)
    requires DiskOk(q, d) && SessionOk(q, d, s) && !Idle(s)
    ensures ResultOk(q, OpenPart(d, s, f))
  {
    hide DiskOk, SessionOk, CommittedBytes, AddSink, Truncate;
    RefuseOk(q, d, s);
    if && s.flags.prepared && s.journal.Some? && s.seeds.Some?
       && f < |s.journal.value.files| && f < |s.seeds.value| && f !in s.sinks {
      var j := s.journal.value;
      var part := PartOf(d, j.transferId, f);
      if s.resumed && part.Some? && FileOk(part.value) && 0 <= CommittedBytes(j.files[f]) <= |part.value.data| {
        TruncateOk(q, d, s, f);
      } else if Key(j.transferId, f) !in d.parts {
        FreshPartOk(q, d, s, f);
      }
    }
  }

  // ---------------------------------------------------------------- writing

  lemma AppendAtEnd(f: File, bytes: seq<byte>)
    requires FileOk(f)
    ensures WriteAt(f, |f.data|, bytes).data == f.data + bytes
  {}

  lemma PartialAtEnd(f: File, bytes: seq<byte>)
    requires FileOk(f) && f.safe == |f.data|
    ensures var g := WriteAt(f, |f.data|, bytes);
            g.safe == |f.data| && g.data[..|f.data|] == f.data
  {
    AppendAtEnd(f, bytes);
  }

  lemma SinkFacts(q: set<Id>, d: Disk, s: Session, f: nat)
    requires DiskOk(q, d) && SessionOk(q, d, s) && s.journal.Some? && f in s.sinks
    ensures NamesOk(d) && SinkOk(q, d, s.journal.value, f, s.sinks[f]) && s.seeds.Some?
  {
    hide Valid, Backed, SinkOk, SeedOk, JournalOk;
  }

  /** A write beyond the claimed prefix, whole or partial, leaves every claim backed. */
  lemma WriteKeeps(q: set<Id>, d: Disk, s: Session, f: nat, bytes: seq<byte>)
    requires DiskOk(q, d) && SessionOk(q, d, s) && s.journal.Some? && f in s.sinks
    requires s.sinks[f].inode in d.files && FileOk(d.files[s.sinks[f].inode])
    ensures var k := s.sinks[f];
            var file := d.files[k.inode];
            var g := WriteAt(file, |file.data|, bytes);
            && DiskOk(q, SetFile(d, k.inode, g)) && DiskOk(q, SetFile(d, k.inode, Sync(g)))
            && g.data == file.data + bytes
  {
    hide DiskOk, SessionOk, Valid, CommittedBytes, Blocks, Pos, JournalOk, WriteAt;
    SessionJournal(q, d, s);
    SinkFacts(q, d, s, f);
    var j, k := s.journal.value, s.sinks[f];
    var file := d.files[k.inode];
    ClaimPos(j, f);
    OwnClaim(q, d, j, f, |file.data|);
    AppendAtEnd(file, bytes);
    PartialAtEnd(file, bytes);
    var g := WriteAt(file, |file.data|, bytes);
    SetFileKeeps(q, d, k.inode, g, |file.data|);
    SetFileKeeps(q, d, k.inode, Sync(g), |file.data|);
  }

  /** The file state a block write records. */
  function Recorded(s: FileState, blocks: int, digest: Option<seq<byte>>): FileState {
    var f := FileState(s.entry, blocks, None);
    if digest == None then f else f.(checkpoint := Some(Checkpoint(true, blocks, CommittedBytes(f), digest.value)))
  }

  lemma RecordFile(j: Journal, f: nat, blocks: int, digest: Option<seq<byte>>, now: int)
    requires f < |j.files| && 0 <= j.files[f].committed <= blocks <= j.files[f].entry.blocks
    ensures Record(j, f, blocks, digest, now) ==
            Some(j.(files := j.files[f := Recorded(j.files[f], blocks, digest)], updated := now))
  {
    hide CommittedBytes;
    var a, b := FileState(j.files[f].entry, blocks, None), Recorded(j.files[f], blocks, digest);
    assert j.files[f := a][f := b] == j.files[f := b];
  }

  /** A synced file backs a claim to all of it. */
  lemma SyncedBacks(q: set<Id>, e: Disk, id: Id, f: nat, s: FileState, next: nat, data: seq<byte>, stateful: bool)
    requires PartOf(e, id, f) == Some(File(data, |data|, true, true)) && Shaped(s.entry)
    requires |data| == Pos(s.entry.size, s.entry.blockSize, next) && (id in q ==> data <= s.entry.digest.pre)
    ensures var r := Recorded(s, next, if stateful then Some(data) else None);
            Backed(q, e, id, f, r) && CommittedBytes(r) == |data|
  {
    hide Pos, Blocks, PartOf;
    CommittedBytesIsPos(FileState(s.entry, next, None));
    CommittedBytesIsPos(Recorded(s, next, if stateful then Some(data) else None));
    assert data[..|data|] == data;
  }

  predicate Writable(q: set<Id>, d: Disk, s: Session, f: nat, bytes: seq<byte>) {
    && DiskOk(q, d) && SessionOk(q, d, s) && s.journal.Some? && f in s.sinks && f < |s.journal.value.files|
    && s.sinks[f].next < s.journal.value.files[f].entry.blocks
    && |bytes| == BlockLength(s.journal.value.files[f].entry, s.sinks[f].next)
    && Streamed(q, s, f, bytes)
  }

  /** The block comes from the source the manifest describes. */
  predicate Streamed(q: set<Id>, s: Session, f: nat, bytes: seq<byte>)
    requires s.journal.Some? && f in s.sinks && f < |s.journal.value.files|
  {
    var j, k := s.journal.value, s.sinks[f];
    var e := j.files[f].entry;
    j.transferId in q && 0 < e.blockSize ==> bytes == BlockOf(e.digest.pre, e.blockSize, k.next)
  }

  /** The journal that would follow, if the clock allows it to be written. */
  function NextJournal(s: Session, f: nat, bytes: seq<byte>, stateful: bool, now: int): Journal
    requires s.journal.Some? && f in s.sinks && f < |s.journal.value.files|
  {
    var j, k := s.journal.value, s.sinks[f];
    j.(files := j.files[f := Recorded(j.files[f], k.next + 1, if stateful then Some(k.digest + bytes) else None)],
       updated := now)
  }

  lemma WritableFacts(q: set<Id>, d: Disk, s: Session, f: nat, bytes: seq<byte>)
    requires Writable(q, d, s, f, bytes)
    ensures var j, k := s.journal.value, s.sinks[f];
            && SinkOk(q, d, j, f, k) && NamesOk(d) && s.seeds.Some? && !k.finished
            && JournalOk(q, d, j.transferId, Whole(j)) && j.transferId in d.journals && d.journals[j.transferId] == Whole(j)
            && |k.digest| == k.next * j.files[f].entry.blockSize
            && |k.digest + bytes| == Pos(j.files[f].entry.size, j.files[f].entry.blockSize, k.next + 1)
            && FileOk(d.files[k.inode])
  {
    hide DiskOk, SessionOk, Valid, Blocks, Pos, JournalOk, BlockLength;
    SessionJournal(q, d, s);
    SinkFacts(q, d, s, f);
    var e, k := s.journal.value.files[f].entry, s.sinks[f];
    BlockLengthIsPos(e, k.next);
    BlockRange(e.size, e.blockSize, k.next);
  }

  /** A prefix of the source followed by its next block is a longer prefix. */
  lemma ExtendsSource(q: set<Id>, d: Disk, s: Session, f: nat, bytes: seq<byte>)
    requires Writable(q, d, s, f, bytes) && s.journal.value.transferId in q
    ensures s.sinks[f].digest + bytes <= s.journal.value.files[f].entry.digest.pre
  {
    hide DiskOk, SessionOk, Valid, Blocks, Pos, BlockLength, Backed;
    WritableFacts(q, d, s, f, bytes);
    var k, e := s.sinks[f], s.journal.value.files[f].entry;
    assert |e.digest.pre| == e.size;
    PosBounds(e.size, e.blockSize, k.next);
    var at := Pos(e.size, e.blockSize, k.next);
    assert k.digest == e.digest.pre[..at] && bytes == e.digest.pre[at..Pos(e.size, e.blockSize, k.next + 1)];
  }

  /** After the sync the new checkpoint may be recorded. */
  lemma RecordBacked(q: set<Id>, d: Disk, e: Disk, s: Session, f: nat, bytes: seq<byte>, stateful: bool, now: int)
    requires Writable(q, d, s, f, bytes) && DiskOk(q, e)
    requires e == SetFile(d, s.sinks[f].inode, File(s.sinks[f].digest + bytes, |s.sinks[f].digest + bytes|, true, true))
    ensures var j, k := s.journal.value, s.sinks[f];
            var j' := NextJournal(s, f, bytes, stateful, now);
            && Record(j, f, k.next + 1, if stateful then Some(k.digest + bytes) else None, now) == Some(j')
            && (Valid(j') ==> JournalOk(q, e, j.transferId, Whole(j')))
            && SinkOk(q, e, j', f, k.(next := k.next + 1, digest := k.digest + bytes))
  {
    hide DiskOk, SessionOk, Valid, Blocks, Pos, JournalOk, BlockLength, Recorded, PartOf, Backed;
    WritableFacts(q, d, s, f, bytes);
    var j, k := s.journal.value, s.sinks[f];
    RecordFile(j, f, k.next + 1, if stateful then Some(k.digest + bytes) else None, now);
    SetFileOnly(d, j.transferId, f, File(k.digest + bytes, |k.digest + bytes|, true, true));
    if j.transferId in q { ExtendsSource(q, d, s, f, bytes); }
    SyncedBacks(q, e, j.transferId, f, j.files[f], k.next + 1, k.digest + bytes, stateful);
    RecordedShape(j.files[f], k.next + 1, if stateful then Some(k.digest + bytes) else None);
    SameSlot(q, d, e, j);
    var j' := NextJournal(s, f, bytes, stateful, now);
    if Valid(j') { Rebacked(q, e, j, j', f); }
  }

  lemma RecordedShape(s: FileState, blocks: int, digest: Option<seq<byte>>)
    ensures Recorded(s, blocks, digest).entry == s.entry && Recorded(s, blocks, digest).committed == blocks
  {}

  lemma SameSlot(q: set<Id>, d: Disk, e: Disk, j: Journal)
    requires DiskOk(q, e) && e.journals == d.journals && j.transferId in d.journals
    requires d.journals[j.transferId] == Whole(j)
    ensures JournalOk(q, e, j.transferId, Whole(j))
  {
    hide Valid, Backed, NamesOk;
    assert JournalOk(q, e, j.transferId, e.journals[j.transferId]);
  }

  lemma Rebacked(q: set<Id>, e: Disk, j: Journal, j': Journal, f: nat)
    requires JournalOk(q, e, j.transferId, Whole(j)) && Valid(j') && f < |j.files| == |j'.files|
    requires j'.transferId == j.transferId && j'.fingerprint == j.fingerprint
    requires forall g :: 0 <= g < |j.files| && g != f ==> j'.files[g] == j.files[g]
    requires Backed(q, e, j.transferId, f, j'.files[f]) && j'.files[f].entry == j.files[f].entry
    ensures JournalOk(q, e, j.transferId, Whole(j'))
  {
    hide Valid, Backed;
  }

  /** The session after its journal moved on together with the file. */
  lemma AdvanceSession(q: set<Id>, d: Disk, e: Disk, s: Session, f: nat, bytes: seq<byte>, j': Journal)
    requires Writable(q, d, s, f, bytes) && Valid(j')
    requires j'.transferId == s.journal.value.transferId && |j'.files| == |s.journal.value.files|
    requires forall g :: 0 <= g < |j'.files| && g != f ==> j'.files[g] == s.journal.value.files[g]
    requires OnlyPart(d, e, j'.transferId, f)
    requires SinkOk(q, e, j', f, s.sinks[f].(next := s.sinks[f].next + 1, digest := s.sinks[f].digest + bytes))
    ensures SessionOk(q, e.(journals := e.journals[j'.transferId := Whole(j')], temp := None),
                      Progressed(s.(journal := Some(j')), f, bytes))
  {
    hide Valid, CommittedBytes, Blocks, Pos, DiskOk, BlockLength, PartOf;
    var s1 := Progressed(s.(journal := Some(j')), f, bytes);
    var e1 := e.(journals := e.journals[j'.transferId := Whole(j')], temp := None);
    var j := s.journal.value;
    assert s.seeds.Some?;
    forall g ensures PartOf(e1, j'.transferId, g) == PartOf(e, j'.transferId, g) { PartSame(e, e1, j'.transferId, g); }
    forall g | g in s1.sinks ensures SinkOk(q, e1, j', g, s1.sinks[g]) {
      if g != f {
        assert SinkOk(q, d, j, g, s.sinks[g]);
        SinkOther(q, d, e1, j, j', g, s.sinks[g]);
      } else {
        SinkOther(q, e, e1, j', j', g, s1.sinks[g]);
      }
    }
    forall g | 0 <= g < |j'.files| && g !in s1.sinks ensures SeedOk(e1, j', g, s1.seeds.value[g]) {
      assert SeedOk(d, j, g, s.seeds.value[g]);
      assert PartOf(e, j.transferId, g) == PartOf(d, j.transferId, g);
    }
  }

  lemma PartSame(d: Disk, e: Disk, id: Id, f: nat)
    requires e.files == d.files && e.parts == d.parts
    ensures PartOf(e, id, f) == PartOf(d, id, f)
  {}

  lemma SinkOther(q: set<Id>, d: Disk, e: Disk, j: Journal, j': Journal, f: nat, k: Sink)
    requires SinkOk(q, d, j, f, k) && f < |j'.files| && j'.files[f] == j.files[f] && j'.transferId == j.transferId
    requires PartOf(e, j.transferId, f) == PartOf(d, j.transferId, f)
    requires Key(j.transferId, f) in e.parts && e.parts[Key(j.transferId, f)] == d.parts[Key(j.transferId, f)]
    ensures SinkOk(q, e, j', f, k)
  {}

  lemma CommitOk(q: set<Id>, d: Disk, e: Disk, s: Session, f: nat, bytes: seq<byte>, stateful: bool,
      now: int, fault: WriteFault)
    requires Writable(q, d, s, f, bytes) && DiskOk(q, e)
    requires e == SetFile(d, s.sinks[f].inode, File(s.sinks[f].digest + bytes, |s.sinks[f].digest + bytes|, true, true))
    ensures ResultOk(q, CommitBlock(e, s, f, bytes, stateful, now, fault))
  {
    hide DiskOk, SessionOk, Valid, Writable, NextJournal, JournalOk, SaveJournal, Record, OnlyPart, SinkOk;
    WritableFacts(q, d, s, f, bytes);
    assert s.journal.Some? && f in s.sinks && f < |s.journal.value.files| by { WritableShape(q, d, s, f, bytes); }
    RecordBacked(q, d, e, s, f, bytes, stateful, now);
    var j' := NextJournal(s, f, bytes, stateful, now);
    NextJournalShape(s, f, bytes, stateful, now);
    RefuseOk(q, e, s.(journal := Some(j')));
    SaveKeeps(q, e, j', if fault.JournalFails? then fault.at else NoFault);
    var c := SaveJournal(e, j', if fault.JournalFails? then fault.at else NoFault);
    assert c.disk == Seen(c)[|c.trace|];
    if c.ok {
      assert OnlyPart(d, e, j'.transferId, f) by {
        SinkInode(q, d, s, f);
        SetFileOnly(d, s.journal.value.transferId, f, File(s.sinks[f].digest + bytes, |s.sinks[f].digest + bytes|, true, true));
      }
      AdvanceSession(q, d, e, s, f, bytes, j');
    }
  }

  lemma SinkInode(q: set<Id>, d: Disk, s: Session, f: nat)
    requires s.journal.Some? && f in s.sinks && SinkOk(q, d, s.journal.value, f, s.sinks[f])
    ensures Key(s.journal.value.transferId, f) in d.parts
    ensures d.parts[Key(s.journal.value.transferId, f)] == s.sinks[f].inode
  {}

  lemma WritableShape(q: set<Id>, d: Disk, s: Session, f: nat, bytes: seq<byte>)
    requires Writable(q, d, s, f, bytes)
    ensures s.journal.Some? && f in s.sinks && f < |s.journal.value.files|
  {}

  lemma NextJournalShape(s: Session, f: nat, bytes: seq<byte>, stateful: bool, now: int)
    requires s.journal.Some? && f in s.sinks && f < |s.journal.value.files|
    ensures var j, j' := s.journal.value, NextJournal(s, f, bytes, stateful, now);
            && j'.transferId == j.transferId && |j'.files| == |j.files|
            && (forall g :: 0 <= g < |j'.files| && g != f ==> j'.files[g] == j.files[g])
  {}

  lemma ThenOk(q: set<Id>, a: Disk, b: Call)
    requires DiskOk(q, a) && AllOk(q, Seen(b))
    ensures AllOk(q, Seen(Then(Call([], a, true), b)))
  {
    hide DiskOk;
    SeenThen(Call([], a, true), b);
  }

  lemma WriteBlockOk(q: set<Id>, d: Disk, s: Session, f: nat, bytes: seq<byte>, stateful: bool,
      now: int, fault: WriteFault)
    requires DiskOk(q, d) && SessionOk(q, d, s) && !Idle(s) && Honest(q, s, OpWrite(f, bytes, stateful, now, fault))
    ensures ResultOk(q, WriteBlock(d, s, f, bytes, stateful, now, fault))
  {
    hide DiskOk, SessionOk, BlockLength, CommitBlock, SinkOk, JournalOk, Sync, WriteAt, AllOk, Seen, Then;
    RefuseOk(q, d, s);
    var r := WriteBlock(d, s, f, bytes, stateful, now, fault);
    if f in s.sinks && !s.sinks[f].finished && s.journal.Some? && f < |s.journal.value.files| {
      var k, e := s.sinks[f], s.journal.value.files[f].entry;
      if && k.inode in d.files && FileOk(d.files[k.inode])
         && k.next < e.blocks && |bytes| == BlockLength(e, k.next) && e.blockSize >= 0 {
        WritableFacts(q, d, s, f, bytes);
        assert d.files[k.inode].data == k.digest by { SinkData(q, d, s, f); }
        WriteKeeps(q, d, s, f, bytes);
        if fault.ShortWrite? {
          WriteKeeps(q, d, s, f, bytes[..Min(fault.n, |bytes|)]);
          OneDisk(q, r.call.disk, false);
        } else if fault.SyncFails? {
          OneDisk(q, r.call.disk, false);
        } else {
          var g := WriteAt(d.files[k.inode], |k.digest|, bytes);
          var written, synced := SetFile(d, k.inode, g), SetFile(d, k.inode, Sync(g));
          assert Sync(g) == File(k.digest + bytes, |k.digest + bytes|, true, true) by { SyncIs(g); }
          CommitOk(q, d, synced, s, f, bytes, stateful, now, fault);
          var c := CommitBlock(synced, s, f, bytes, stateful, now, fault);
          ThenOk(q, synced, c.call);
          ThenOk(q, written, Then(Call([], synced, true), c.call));
          ThenDisk(written, synced, c.call);
        }
      }
    }
  }

  lemma SyncIs(g: File)
    ensures Sync(g) == File(g.data, |g.data|, true, true)
  {}

  lemma SinkData(q: set<Id>, d: Disk, s: Session, f: nat)
    requires s.journal.Some? && f in s.sinks && SinkOk(q, d, s.journal.value, f, s.sinks[f])
    ensures d.files[s.sinks[f].inode].data == s.sinks[f].digest
  {}

  lemma ThenDisk(a: Disk, b: Disk, c: Call)
    ensures Then(Call([], a, true), Then(Call([], b, true), c)).disk == c.disk
  {}

  lemma OneDisk(q: set<Id>, d: Disk, ok: bool)
    requires DiskOk(q, d)
    ensures AllOk(q, Seen(Call([], d, ok)))
  {
    hide DiskOk;
  }

  // ---------------------------------------------------------------- finishing

  lemma FinishOk(q: set<Id>, d: Disk, s: Session, f: nat, syncOk: bool)
    requires DiskOk(q, d) && SessionOk(q, d, s) && !Idle(s)
    ensures ResultOk(q, FinishFile(d, s, f, syncOk))
  {
    hide DiskOk, SessionOk, Blocks, Pos, JournalOk, CommittedBytes, Valid, PartOf, Backed;
    RefuseOk(q, d, s);
    if f in s.sinks && !s.sinks[f].finished && s.journal.Some? && f < |s.journal.value.files| {
      var j, k := s.journal.value, s.sinks[f];
      var e := j.files[f].entry;
      if k.next == e.blocks && Sha(k.digest) == e.digest && k.inode in d.files && syncOk {
        SessionJournal(q, d, s);
        SinkFacts(q, d, s, f);
        ClaimPos(j, f);
        var g := Sync(d.files[k.inode]);
        OwnClaim(q, d, j, f, |g.data|);
        SetFileKeeps(q, d, k.inode, g, |g.data|);
        SetFileOnly(d, j.transferId, f, g);
        OthersKeep(q, d, SetFile(d, k.inode, g), s, f, k.(finished := true));
      }
    }
  }

  // ---------------------------------------------------------------- promotion

  /** Adding a final name, and dropping the partial whose file it now is. */
  lemma LinkKeeps(q: set<Id>, d: Disk, key: Key, name: seq<byte>)
    requires DiskOk(q, d) && key in d.parts && name !in d.finals
    requires key.id in d.journals && d.journals[key.id].Whole? && key.f < |d.journals[key.id].j.files|
             && d.journals[key.id].j.files[key.f].entry.name == name
    ensures var linked := d.(finals := d.finals[name := d.parts[key]]);
            DiskOk(q, linked) && DiskOk(q, linked.(parts := linked.parts - {key}))
  {
    hide Valid, CommittedBytes, Blocks;
    var linked := d.(finals := d.finals[name := d.parts[key]]);
    var moved := linked.(parts := linked.parts - {key});
    forall id | id in d.journals
      ensures JournalOk(q, linked, id, d.journals[id]) && JournalOk(q, moved, id, d.journals[id])
    {
      assert JournalOk(q, d, id, d.journals[id]);
      var j := d.journals[id].j;
      forall f | 0 <= f < |j.files|
        ensures Backed(q, linked, id, f, j.files[f]) && Backed(q, moved, id, f, j.files[f])
      {
        assert Backed(q, d, id, f, j.files[f]);
      }
    }
  }

  lemma PromoteOk(q: set<Id>, d: Disk, j: Journal, f: nat, mode: PromoteMode)
    requires DiskOk(q, d) && j.transferId in d.journals && d.journals[j.transferId] == Whole(j) && f < |j.files|
    ensures var c := Promote(d, Key(j.transferId, f), j.files[f].entry.name, mode);
            AllOk(q, Seen(c)) && c.disk.journals == d.journals
  {
    hide DiskOk;
    var key, name := Key(j.transferId, f), j.files[f].entry.name;
    if key in d.parts && name !in d.finals { LinkKeeps(q, d, key, name); }
  }

  lemma {:induction false} PromoteAllOk(q: set<Id>, d: Disk, j: Journal, n: nat, modes: seq<PromoteMode>)
    requires DiskOk(q, d) && j.transferId in d.journals && d.journals[j.transferId] == Whole(j) && n <= |j.files|
    ensures var c := PromoteAll(d, j, n, modes); AllOk(q, Seen(c)) && c.disk.journals == d.journals && DiskOk(q, c.disk)
  {
    hide DiskOk, Promote;
    if n > 0 {
      PromoteAllOk(q, d, j, n - 1, modes);
      var before := PromoteAll(d, j, n - 1, modes);
      if before.ok {
        PromoteOk(q, before.disk, j, n - 1, ModeAt(modes, n - 1));
        var p := Promote(before.disk, Key(j.transferId, n - 1), j.files[n - 1].entry.name, ModeAt(modes, n - 1));
        SeenThen(before, p);
        assert p.disk == Seen(p)[|p.trace|];
      }
    }
  }

  lemma DiscardOk(q: set<Id>, d: Disk, id: Id)
    requires DiskOk(q, d)
    ensures AllOk(q, Seen(DiscardCall(d, id)))
  {
    hide Valid, CommittedBytes, Blocks;
    var bare := d.(journals := d.journals - {id});
    var gone := RemoveParts(bare, id);
    forall i | i in bare.journals
      ensures JournalOk(q, bare, i, bare.journals[i]) && JournalOk(q, gone, i, bare.journals[i])
    {
      assert JournalOk(q, d, i, d.journals[i]);
      var j := d.journals[i].j;
      forall f | 0 <= f < |j.files| ensures Backed(q, bare, i, f, j.files[f]) && Backed(q, gone, i, f, j.files[f]) {
        assert Backed(q, d, i, f, j.files[f]);
        assert Key(i, f).id != id;
      }
    }
    assert DiskOk(q, bare) && DiskOk(q, gone);
  }

  lemma CloseOk(q: set<Id>, d: Disk, s: Session, modes: seq<PromoteMode>)
    requires DiskOk(q, d) && SessionOk(q, d, s) && !Idle(s)
    ensures ResultOk(q, Close(d, s, modes))
  {
    hide DiskOk, SessionOk, Valid, JournalOk, Backed, FileStateOk, PromoteAll, DiscardCall;
    RefuseOk(q, d, s);
    if AllFinished(s) {
      SessionJournal(q, d, s);
      var j := s.journal.value;
      PromoteAllOk(q, d, j, |j.files|, modes);
      var p := PromoteAll(d, j, |j.files|, modes);
      DiscardOk(q, p.disk, j.transferId);
      SeenThen(p, DiscardCall(p.disk, j.transferId));
    }
  }

  // ---------------------------------------------------------------- whole runs

  lemma PerformOk(q: set<Id>, root: nat, d: Disk, s: Session, op: Op)
    requires DiskOk(q, d) && (Idle(s) || SessionOk(q, d, s)) && Honest(q, s, op)
    ensures ResultOk(q, Perform(root, d, s, op))
  {
    hide DiskOk, SessionOk, Prepare, Negotiate, OpenPart, WriteBlock, FinishFile, Close;
    if Idle(s) {
      RefuseOk(q, d, s);
    } else {
      match op {
        case OpPrepare(m, now, fault) => PrepareOk(q, d, s, m, root, now, fault);
        case OpNegotiate(m, secret, fault) => NegotiateOk(q, d, s, m, secret, fault);
        case OpOpen(f) => OpenOk(q, d, s, f);
        case OpWrite(f, bytes, stateful, now, fault) => WriteBlockOk(q, d, s, f, bytes, stateful, now, fault);
        case OpFinish(f, syncOk) => FinishOk(q, d, s, f, syncOk);
        case OpClose(modes) => CloseOk(q, d, s, modes);
      }
    }
  }

  lemma ApplyOk(q: set<Id>, root: nat, h: Host, e: Event)
    requires HostOk(q, h) && HonestEvent(q, h, e)
    ensures HostOk(q, Apply(root, h, e))
  {
    hide DiskOk, SessionOk, Perform, Survives, DiscardCall;
    match e {
      case Begin(selected, authorized) =>
        if h.session == None { FreshSessionOk(q, h.disk, selected, authorized); }
      case Do(op) =>
        if h.session.Some? {
          PerformOk(q, root, h.disk, h.session.value, op);
          var c := Perform(root, h.disk, h.session.value, op).call;
          assert c.disk == Seen(c)[|c.trace|];
        }
      case CrashDuring(op, at, found) =>
        if h.session.Some? {
          PerformOk(q, root, h.disk, h.session.value, op);
          var seen := Seen(Perform(root, h.disk, h.session.value, op).call);
          if at < |seen| && Survives(seen[at], found) { CrashKeeps(q, seen[at], found); }
        }
      case Crash(found) => if Survives(h.disk, found) { CrashKeeps(q, h.disk, found); }
      case Abort =>
      case Discard(id) => DiscardOk(q, h.disk, id); DiscardSeen(h.disk, id);
      case DiscardInterrupted(id) => DiscardOk(q, h.disk, id); DiscardSeen(h.disk, id);
    }
  }

  lemma DiscardSeen(d: Disk, id: Id)
    ensures |Seen(DiscardCall(d, id))| == 2
    ensures Seen(DiscardCall(d, id))[0] == DiscardCall(d, id).trace[0]
    ensures Seen(DiscardCall(d, id))[1] == DiscardCall(d, id).disk
  {}

  lemma FreshSessionOk(q: set<Id>, d: Disk, selected: Id, authorized: bool)
    ensures SessionOk(q, d, NewSession(selected, authorized))
  {}

  lemma {:induction false} ReachableOk(q: set<Id>, root: nat, start: Disk, es: seq<Event>)
    requires DiskOk(q, start) && HonestRun(q, root, start, es)
    ensures HostOk(q, Exec(root, start, es))
    decreases |es|
  {
    hide DiskOk, Apply, SessionOk;
    if es != [] {
      ReachableOk(q, root, start, es[..|es| - 1]);
      ApplyOk(q, root, Exec(root, start, es[..|es| - 1]), es[|es| - 1]);
    }
  }
}
