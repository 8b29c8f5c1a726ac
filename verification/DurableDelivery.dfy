/** A receive can be finished: from a fresh store, or from whatever an interrupted receive has
    left, as long as nothing of it has been promoted, a session without faults delivers. */
module DurableDelivery {
  import opened Wire
  import opened Geometry
  import opened Journals
  import opened Storage
  import opened Durable
  import opened DurableSafety
  import opened DurableResults
  import opened DurablePromotion
  import opened DurableEngine
  import D = DurableDiscard
  import SafePath

  /** No file of the transfer has its final name yet. */
  predicate FreeNames(d: Disk, j: Journal) {
    forall f :: 0 <= f < |j.files| ==> j.files[f].entry.name !in d.finals
  }

  /** The partials from file `i` on are as the session expects them: all that is claimed is there
      when resuming, and nothing is there for a new journal. */
  predicate Openable(d: Disk, s: Session, i: nat)
    requires s.journal.Some?
  {
    var j := s.journal.value;
    forall f :: i <= f < |j.files| ==>
      if s.resumed then j.files[f].committed > 0 ==> Key(j.transferId, f) in d.parts else Key(j.transferId, f) !in d.parts
  }

  /** A negotiated session that goes on: all files before `i` are in and verified. */
  predicate Working(d: Disk, s: Session, i: nat) {
    && !Idle(s) && s.journal.Some? && s.seeds.Some? && i <= |s.journal.value.files| && FreeNames(d, s.journal.value)
    && (forall g :: 0 <= g < i ==> g in s.sinks && s.sinks[g].finished)
  }

  /** No later file has been opened. */
  predicate Filling(d: Disk, s: Session, i: nat) {
    Working(d, s, i) && (forall g :: g in s.sinks ==> g < i) && Openable(d, s, i)
  }

  /** File `i` is open and `n` of its blocks are in. */
  predicate Writing(d: Disk, s: Session, i: nat, n: nat) {
    && Working(d, s, i) && i < |s.journal.value.files| && (forall g :: g in s.sinks ==> g <= i)
    && i in s.sinks && !s.sinks[i].finished && s.sinks[i].next == n && Openable(d, s, i + 1)
  }

  // ---------------------------------------------------------------- one file

  /** What the invariant says of the journal a session works with. */
  lemma JournalFacts(q: set<Id>, h: Host, f: nat)
    requires HostOk(q, h) && h.session.Some? && !Idle(h.session.value) && h.session.value.journal.Some?
    requires f < |h.session.value.journal.value.files|
    ensures var s, j := h.session.value, h.session.value.journal.value;
            && SessionOk(q, h.disk, s) && DiskOk(q, h.disk) && NamesOk(h.disk) && Valid(j) && s.flags.prepared
            && FileStateOk(j.files[f], f, j.files[0].entry.blockSize) && Backed(q, h.disk, j.transferId, f, j.files[f])
            && (j.transferId in q ==> |j.files[f].entry.digest.pre| == j.files[f].entry.size)
  {
    var s := h.session.value;
    assert SessionOk(q, h.disk, s) && DiskOk(q, h.disk);
    SessionJournal(q, h.disk, s);
    hide Valid, Backed, FileStateOk, SinkOk, SeedOk;
  }

  lemma SinkInPlace(q: set<Id>, d: Disk, s: Session, f: nat)
    requires SessionOk(q, d, s) && s.journal.Some? && f in s.sinks
    ensures SinkOk(q, d, s.journal.value, f, s.sinks[f])
  {
    hide Valid, SinkOk, SeedOk, DiskOk;
  }

  /** A file whose claim is there opens at its claim, and one without a partial as a new one. */
  lemma OpenSucceeds(d: Disk, s: Session, i: nat)
    requires Filling(d, s, i) && i < |s.journal.value.files| && s.flags.prepared && i < |s.seeds.value|
    requires var j := s.journal.value;
             && NamesOk(d) && s.seeds.value[i].haveBlocks == j.files[i].committed >= 0
             && 0 <= CommittedBytes(j.files[i]) && (j.files[i].committed == 0 ==> CommittedBytes(j.files[i]) == 0)
             && (PartOf(d, j.transferId, i).Some? ==> CommittedBytes(j.files[i]) <= |PartOf(d, j.transferId, i).value.data|)
    ensures var r := OpenPart(d, s, i);
            && Writing(r.call.disk, r.session, i, s.journal.value.files[i].committed)
            && r.session.journal == s.journal
  {
    hide CommittedBytes, Truncate;
    var j := s.journal.value;
    var key := Key(j.transferId, i);
    var r := OpenPart(d, s, i);
    assert i !in s.sinks;
    if key in d.parts {
      assert PartOf(d, j.transferId, i).Some? && FileOk(PartOf(d, j.transferId, i).value);
      assert s.resumed;
    } else {
      assert s.resumed ==> CommittedBytes(j.files[i]) == 0;
    }
    assert r.call.disk.finals == d.finals && forall k :: k in r.call.disk.parts ==> k in d.parts || k == key;
    assert forall k :: k in d.parts ==> k in r.call.disk.parts;
  }

  lemma OpenReady(q: set<Id>, h: Host, i: nat)
    requires HostOk(q, h) && h.session.Some? && Filling(h.disk, h.session.value, i)
    requires i < |h.session.value.journal.value.files|
    ensures var s, d := h.session.value, h.disk;
            && s.flags.prepared && i < |s.seeds.value| && NamesOk(d)
            && var j := s.journal.value;
               && s.seeds.value[i].haveBlocks == j.files[i].committed >= 0
               && 0 <= CommittedBytes(j.files[i]) && (j.files[i].committed == 0 ==> CommittedBytes(j.files[i]) == 0)
               && (PartOf(d, j.transferId, i).Some? ==> CommittedBytes(j.files[i]) <= |PartOf(d, j.transferId, i).value.data|)
  {
    var s, j, d := h.session.value, h.session.value.journal.value, h.disk;
    JournalFacts(q, h, i);
    hide HostOk, SessionOk, DiskOk, Valid, CommittedBytes, Pos, Blocks, Backed, NamesOk;
    ClaimPos(j, i);
    OpenFacts(q, d, s, i);
    ClaimThere(q, d, j, i);
  }

  lemma DoOpen(root: nat, h: Host, i: nat)
    requires h.session.Some? && !Idle(h.session.value)
    ensures var r := OpenPart(h.disk, h.session.value, i); Apply(root, h, Do(OpOpen(i))) == Host(r.call.disk, Some(r.session))
  {}

  lemma OpenStep(q: set<Id>, root: nat, h: Host, i: nat)
    requires HostOk(q, h) && h.session.Some? && Filling(h.disk, h.session.value, i)
    requires i < |h.session.value.journal.value.files|
    ensures HonestEvent(q, h, Do(OpOpen(i)))
    ensures var t := Apply(root, h, Do(OpOpen(i)));
            && HostOk(q, t) && t.session.Some? && t.session.value.journal == h.session.value.journal
            && Writing(t.disk, t.session.value, i, h.session.value.journal.value.files[i].committed)
  {
    var s, d := h.session.value, h.disk;
    assert !Idle(s) by { FillingGoes(d, s, i); }
    hide HostOk, CommittedBytes, OpenPart, Filling, Writing, Apply, PartOf, NamesOk;
    assert HonestEvent(q, h, Do(OpOpen(i)));
    ApplyOk(q, root, h, Do(OpOpen(i)));
    OpenReady(q, h, i);
    OpenSucceeds(d, s, i);
    DoOpen(root, h, i);
  }

  lemma FillingGoes(d: Disk, s: Session, i: nat)
    requires Filling(d, s, i)
    ensures !Idle(s)
  {}

  /** A partial that is there holds what is claimed of it. */
  lemma ClaimThere(q: set<Id>, d: Disk, j: Journal, i: nat)
    requires i < |j.files| && FileStateOk(j.files[i], i, j.files[0].entry.blockSize)
    requires Backed(q, d, j.transferId, i, j.files[i])
    requires j.files[i].committed == 0 ==> CommittedBytes(j.files[i]) == 0
    ensures PartOf(d, j.transferId, i).Some? ==> CommittedBytes(j.files[i]) <= |PartOf(d, j.transferId, i).value.data|
  {
    hide CommittedBytes, Blocks;
  }

  lemma BlockFits(e: FileEntry, n: nat)
    requires Shaped(e) && n < e.blocks && |e.digest.pre| == e.size
    ensures |BlockOf(e.digest.pre, e.blockSize, n)| == BlockLength(e, n)
  {
    BlockOfLength(e.digest.pre, e.blockSize, n);
    BlockLengthIsPos(e, n);
  }

  /** The next block of the source, written without a fault at the journal's own time. */
  function NextWrite(s: Session, i: nat): Op
    requires s.journal.Some? && i in s.sinks && i < |s.journal.value.files|
    requires s.journal.value.files[i].entry.blockSize > 0
  {
    var e := s.journal.value.files[i].entry;
    OpWrite(i, BlockOf(e.digest.pre, e.blockSize, s.sinks[i].next), false, s.journal.value.created, NoWriteFault)
  }

  lemma RecordedValid(j: Journal, f: nat, n: nat)
    requires Valid(j) && f < |j.files| && j.files[f].committed == n < j.files[f].entry.blocks
    ensures Record(j, f, n + 1, None, j.created).Some? && Valid(Record(j, f, n + 1, None, j.created).value)
  {
    RecordKeepsValid(j, f, n + 1, None, j.created);
  }

  lemma RecordedSame(j: Journal, f: nat, n: nat)
    requires Record(j, f, n, None, j.created).Some? && f < |j.files|
    ensures var j' := Record(j, f, n, None, j.created).value;
            && j'.transferId == j.transferId && |j'.files| == |j.files| && Entries(j'.files) == Entries(j.files)
            && (forall g :: 0 <= g < |j.files| ==> j'.files[g].entry == j.files[g].entry)
            && (forall g :: 0 <= g < |j.files| && g != f ==> j'.files[g] == j.files[g])
  {}

  /** What a write without a fault needs. */
  predicate WriteReady(d: Disk, s: Session, i: nat, bytes: seq<byte>) {
    && s.journal.Some? && i < |s.journal.value.files| && i in s.sinks && !s.sinks[i].finished && !Idle(s)
    && var j, k := s.journal.value, s.sinks[i];
    && Valid(j) && k.inode in d.files && FileOk(d.files[k.inode]) && k.next < j.files[i].entry.blocks
    && j.files[i].committed == k.next && |bytes| == BlockLength(j.files[i].entry, k.next) && j.files[i].entry.blockSize >= 0
  }

  /** Without a fault the block is written, synced and recorded. */
  lemma WriteSucceeds(d: Disk, s: Session, i: nat, bytes: seq<byte>)
    requires WriteReady(d, s, i, bytes)
    ensures var j := s.journal.value;
            var r := WriteBlock(d, s, i, bytes, false, j.created, NoWriteFault);
            var j' := Record(j, i, s.sinks[i].next + 1, None, j.created);
            && j'.Some? && r.session == Progressed(s.(journal := j'), i, bytes)
            && r.call.disk.parts == d.parts && r.call.disk.finals == d.finals
  {
    hide Valid, Record, WriteAt, Sync, BlockLength;
    RecordedValid(s.journal.value, i, s.sinks[i].next);
  }

  lemma WrittenOn(d: Disk, s: Session, e: Disk, j': Journal, i: nat, n: nat, bytes: seq<byte>)
    requires Writing(d, s, i, n) && e.parts == d.parts && e.finals == d.finals
    requires var j := s.journal.value;
             && j'.transferId == j.transferId && |j'.files| == |j.files|
             && (forall g :: 0 <= g < |j.files| ==> j'.files[g].entry == j.files[g].entry)
             && (forall g :: 0 <= g < |j.files| && g != i ==> j'.files[g] == j.files[g])
    ensures Writing(e, Progressed(s.(journal := Some(j')), i, bytes), i, n + 1)
  {}

  lemma ReadyToWrite(q: set<Id>, h: Host, i: nat, n: nat)
    requires HostOk(q, h) && h.session.Some? && Writing(h.disk, h.session.value, i, n)
    requires h.session.value.journal.value.transferId in q && n < h.session.value.journal.value.files[i].entry.blocks
    ensures var e := h.session.value.journal.value.files[i].entry;
            0 < e.blockSize && WriteReady(h.disk, h.session.value, i, BlockOf(e.digest.pre, e.blockSize, n))
  {
    var s, j, d := h.session.value, h.session.value.journal.value, h.disk;
    JournalFacts(q, h, i);
    SinkInPlace(q, d, s, i);
    hide HostOk, SessionOk, DiskOk, Valid, Blocks, BlockOf, BlockLength, CommittedBytes, Backed;
    BlockFits(j.files[i].entry, n);
  }

  lemma DoWrite(root: nat, h: Host, op: Op)
    requires h.session.Some? && !Idle(h.session.value) && op.OpWrite?
    ensures var r := WriteBlock(h.disk, h.session.value, op.f, op.bytes, op.stateful, op.now, op.writeFault);
            Apply(root, h, Do(op)) == Host(r.call.disk, Some(r.session))
  {}

  lemma WriteIsHonest(q: set<Id>, h: Host, i: nat)
    requires h.session.Some? && h.session.value.journal.Some? && i in h.session.value.sinks
    requires i < |h.session.value.journal.value.files| && h.session.value.journal.value.files[i].entry.blockSize > 0
    ensures HonestEvent(q, h, Do(NextWrite(h.session.value, i)))
  {
    hide BlockOf;
  }

  /** The next block written: where the session stands afterwards. */
  lemma WriteTurn(root: nat, h: Host, i: nat, n: nat)
    requires h.session.Some? && Writing(h.disk, h.session.value, i, n)
    requires var s, files := h.session.value, h.session.value.journal.value.files;
             && n < files[i].entry.blocks && 0 < files[i].entry.blockSize
             && WriteReady(h.disk, s, i, BlockOf(files[i].entry.digest.pre, files[i].entry.blockSize, n))
    ensures var t, j := Apply(root, h, Do(NextWrite(h.session.value, i))), h.session.value.journal.value;
            && t.session.Some? && Writing(t.disk, t.session.value, i, n + 1)
            && t.session.value.journal.value.transferId == j.transferId
            && Entries(t.session.value.journal.value.files) == Entries(j.files)
  {
    hide WriteBlock, Writing, WriteReady, Apply, BlockOf, Record, Valid, Entries, Idle;
    var s, d := h.session.value, h.disk;
    WritingGoes(d, s, i, n);
    var j := s.journal.value;
    var bytes := BlockOf(j.files[i].entry.digest.pre, j.files[i].entry.blockSize, n);
    WriteSucceeds(d, s, i, bytes);
    RecordedSame(j, i, n + 1);
    var r := WriteBlock(d, s, i, bytes, false, j.created, NoWriteFault);
    WrittenOn(d, s, r.call.disk, Record(j, i, n + 1, None, j.created).value, i, n, bytes);
    DoWrite(root, h, NextWrite(s, i));
  }

  lemma WriteStep(q: set<Id>, root: nat, h: Host, i: nat, n: nat)
    requires HostOk(q, h) && h.session.Some? && Writing(h.disk, h.session.value, i, n)
    requires h.session.value.journal.value.transferId in q && n < h.session.value.journal.value.files[i].entry.blocks
    ensures 0 < h.session.value.journal.value.files[i].entry.blockSize
    ensures var e := Do(NextWrite(h.session.value, i));
            var t, j := Apply(root, h, e), h.session.value.journal.value;
            && HonestEvent(q, h, e) && HostOk(q, t) && t.session.Some? && Writing(t.disk, t.session.value, i, n + 1)
            && t.session.value.journal.value.transferId == j.transferId
            && Entries(t.session.value.journal.value.files) == Entries(j.files)
  {
    hide HostOk, Writing, WriteReady, Apply, BlockOf, HonestEvent, Entries, NextWrite;
    WritingGoes(h.disk, h.session.value, i, n);
    ReadyToWrite(q, h, i, n);
    WriteTurn(root, h, i, n);
    WriteIsHonest(q, h, i);
    ApplyOk(q, root, h, Do(NextWrite(h.session.value, i)));
  }

  lemma WritingGoes(d: Disk, s: Session, i: nat, n: nat)
    requires Writing(d, s, i, n)
    ensures !Idle(s) && s.journal.Some? && i < |s.journal.value.files| && i in s.sinks && s.sinks[i].next == n
  {}

  lemma Snoc(q: set<Id>, root: nat, start: Disk, es: seq<Event>, e: Event) returns (all: seq<Event>)
    requires HonestRun(q, root, start, es) && HonestEvent(q, Exec(root, start, es), e)
    ensures all == es + [e] && HonestRun(q, root, start, all)
    ensures Exec(root, start, all) == Apply(root, Exec(root, start, es), e)
  {
    hide Apply, HonestEvent;
    all := es + [e];
    assert all[..|all| - 1] == es;
  }

  /** A run of the store that has got to this session, about transfer `id` with these files. */
  predicate Going(id: Id, entries: seq<FileEntry>, root: nat, start: Disk, es: seq<Event>) {
    && HonestRun({id}, root, start, es) && HostOk({id}, Exec(root, start, es))
    && var h := Exec(root, start, es);
    && h.session.Some? && h.session.value.journal.Some?
    && h.session.value.journal.value.transferId == id && Entries(h.session.value.journal.value.files) == entries
  }

  lemma {:induction false} WriteRest(id: Id, entries: seq<FileEntry>, root: nat, start: Disk,
      es: seq<Event>, i: nat, k: nat, blocks: nat)
    returns (all: seq<Event>)
    requires Going(id, entries, root, start, es) && i < |entries| && k <= blocks
    requires var h := Exec(root, start, es);
             Writing(h.disk, h.session.value, i, k) && entries[i].blocks == blocks
    ensures Going(id, entries, root, start, all)
    ensures var h := Exec(root, start, all);
            Writing(h.disk, h.session.value, i, blocks)
    decreases blocks - k
  {
    hide Exec, HonestRun, Apply, HonestEvent, HostOk, Writing;
    all := es;
    if k < blocks {
      var h := Exec(root, start, es);
      WritingGoes(h.disk, h.session.value, i, k);
      EntryAt(h.session.value.journal.value, i);
      WriteStep({id}, root, h, i, k);
      all := Snoc({id}, root, start, es, Do(NextWrite(h.session.value, i)));
      SessionStays(Exec(root, start, all), i, k + 1);
      all := WriteRest(id, entries, root, start, all, i, k + 1, blocks);
    }
  }

  lemma EntryAt(j: Journal, i: nat)
    requires i < |j.files|
    ensures |Entries(j.files)| == |j.files| && Entries(j.files)[i] == j.files[i].entry
  {}

  lemma SessionStays(h: Host, i: nat, n: nat)
    requires h.session.Some? && Writing(h.disk, h.session.value, i, n)
    ensures h.session.value.journal.Some?
  {}

  /** All blocks in, the file is the source and passes its digest check. */
  lemma FinishSucceeds(d: Disk, s: Session, i: nat, n: nat)
    requires Writing(d, s, i, n) && s.journal.value.files[i].entry.blocks == n
    requires s.sinks[i].inode in d.files && Sha(s.sinks[i].digest) == s.journal.value.files[i].entry.digest
    ensures var r := FinishFile(d, s, i, true);
            Filling(r.call.disk, r.session, i + 1) && r.session.journal == s.journal
  {
    hide Sync;
  }

  lemma WholeFile(q: set<Id>, h: Host, i: nat, n: nat)
    requires HostOk(q, h) && h.session.Some? && h.session.value.journal.Some?
    requires h.session.value.journal.value.transferId in q
    requires Writing(h.disk, h.session.value, i, n) && h.session.value.journal.value.files[i].entry.blocks == n
    ensures var s := h.session.value;
            s.sinks[i].inode in h.disk.files && Sha(s.sinks[i].digest) == s.journal.value.files[i].entry.digest
  {
    var s, j, d := h.session.value, h.session.value.journal.value, h.disk;
    JournalFacts(q, h, i);
    SinkInPlace(q, d, s, i);
    var e := j.files[i].entry;
    hide HostOk, SessionOk, DiskOk, Valid, Backed, Blocks, CommittedBytes;
    BlockCountBound(e.size, e.blockSize);
  }

  lemma DoFinish(root: nat, h: Host, i: nat)
    requires h.session.Some? && !Idle(h.session.value)
    ensures var r := FinishFile(h.disk, h.session.value, i, true);
            Apply(root, h, Do(OpFinish(i, true))) == Host(r.call.disk, Some(r.session))
  {}

  lemma FinishStep(q: set<Id>, root: nat, h: Host, i: nat, n: nat)
    requires HostOk(q, h) && h.session.Some? && h.session.value.journal.Some?
    requires h.session.value.journal.value.transferId in q
    requires Writing(h.disk, h.session.value, i, n) && h.session.value.journal.value.files[i].entry.blocks == n
    ensures HonestEvent(q, h, Do(OpFinish(i, true)))
    ensures var t := Apply(root, h, Do(OpFinish(i, true)));
            && HostOk(q, t) && t.session.Some? && t.session.value.journal == h.session.value.journal
            && Filling(t.disk, t.session.value, i + 1)
  {
    WritingGoes(h.disk, h.session.value, i, n);
    hide HostOk, Writing, Filling, Apply, FinishFile;
    assert HonestEvent(q, h, Do(OpFinish(i, true)));
    ApplyOk(q, root, h, Do(OpFinish(i, true)));
    WholeFile(q, h, i, n);
    FinishSucceeds(h.disk, h.session.value, i, n);
    DoFinish(root, h, i);
  }

  /** One file from opening to its digest check. */
  lemma OneFile(id: Id, entries: seq<FileEntry>, root: nat, start: Disk, es: seq<Event>,
      i: nat) returns (all: seq<Event>)
    requires Going(id, entries, root, start, es) && i < |entries|
    requires Filling(Exec(root, start, es).disk, Exec(root, start, es).session.value, i)
    ensures Going(id, entries, root, start, all)
    ensures Filling(Exec(root, start, all).disk, Exec(root, start, all).session.value, i + 1)
  {
    hide Exec, HonestRun, Apply, HonestEvent, HostOk, Writing, Filling;
    var h := Exec(root, start, es);
    var j := h.session.value.journal.value;
    FillingGoes(h.disk, h.session.value, i);
    EntryAt(j, i);
    CommittedInRange({id}, h, i);
    OpenStep({id}, root, h, i);
    all := Snoc({id}, root, start, es, Do(OpOpen(i)));
    all := WriteRest(id, entries, root, start, all, i, j.files[i].committed, j.files[i].entry.blocks);
    EntryAt(Exec(root, start, all).session.value.journal.value, i);
    FinishStep({id}, root, Exec(root, start, all), i, entries[i].blocks);
    all := Snoc({id}, root, start, all, Do(OpFinish(i, true)));
  }

  lemma CommittedInRange(q: set<Id>, h: Host, i: nat)
    requires HostOk(q, h) && h.session.Some? && !Idle(h.session.value) && h.session.value.journal.Some?
    requires i < |h.session.value.journal.value.files|
    ensures 0 <= h.session.value.journal.value.files[i].committed <= h.session.value.journal.value.files[i].entry.blocks
  {
    JournalFacts(q, h, i);
  }

  lemma {:induction false} AllFiles(id: Id, entries: seq<FileEntry>, root: nat, start: Disk,
      es: seq<Event>, i: nat) returns (all: seq<Event>)
    requires Going(id, entries, root, start, es) && i <= |entries|
    requires Filling(Exec(root, start, es).disk, Exec(root, start, es).session.value, i)
    ensures Going(id, entries, root, start, all)
    ensures Filling(Exec(root, start, all).disk, Exec(root, start, all).session.value, |entries|)
    decreases |entries| - i
  {
    hide Going, Filling, Exec;
    all := es;
    if i < |entries| {
      all := OneFile(id, entries, root, start, es, i);
      all := AllFiles(id, entries, root, start, all, i + 1);
    }
  }

  // ---------------------------------------------------------------- promotion

  lemma {:induction false} PromoteAllSucceeds(d: Disk, j: Journal, n: nat)
    requires n <= |j.files| && FreeNames(d, j)
    requires forall f :: 0 <= f < |j.files| ==> Key(j.transferId, f) in d.parts
    requires forall f, g :: 0 <= f < g < |j.files| ==> j.files[f].entry.name != j.files[g].entry.name
    ensures var c := PromoteAll(d, j, n, []);
            && c.ok
            && (forall f :: n <= f < |j.files| ==>
                  Key(j.transferId, f) in c.disk.parts && j.files[f].entry.name !in c.disk.finals)
    decreases n
  {
    if n > 0 { PromoteAllSucceeds(d, j, n - 1); }
  }

  /** The names of a valid journal are distinct. */
  lemma NamesDistinct(j: Journal)
    requires Valid(j)
    ensures forall f, g :: 0 <= f < g < |j.files| ==> j.files[f].entry.name != j.files[g].entry.name
  {
    var entries := Entries(j.files);
    assert SafePath.DistinctNames(entries) by {
      hide SafePath.EntriesOk, SafePath.DistinctNames, SafePath.SizeSum, FileStateOk;
    }
    hide Valid;
    forall f, g | 0 <= f < g < |j.files| ensures j.files[f].entry.name != j.files[g].entry.name {
      assert entries[f].name == j.files[f].entry.name && entries[g].name == j.files[g].entry.name;
    }
  }

  lemma ReadyToClose(q: set<Id>, h: Host)
    requires HostOk(q, h) && h.session.Some? && h.session.value.journal.Some?
    requires Filling(h.disk, h.session.value, |h.session.value.journal.value.files|)
    ensures var s, j := h.session.value, h.session.value.journal.value;
            && !Idle(s) && AllFinished(s) && Valid(j) && FreeNames(h.disk, j)
            && (forall f :: 0 <= f < |j.files| ==> Key(j.transferId, f) in h.disk.parts)
  {
    var s, j := h.session.value, h.session.value.journal.value;
    FillingGoes(h.disk, s, |j.files|);
    assert SessionOk(q, h.disk, s);
    assert Valid(j) by { hide Valid, SinkOk, SeedOk; }
    hide HostOk, Valid;
    forall f | 0 <= f < |j.files| ensures Key(j.transferId, f) in h.disk.parts {
      assert f in s.sinks;
      SinkInPlace(q, h.disk, s, f);
    }
  }

  lemma CloseSucceeds(q: set<Id>, root: nat, h: Host)
    requires HostOk(q, h) && h.session.Some? && h.session.value.journal.Some?
    requires Filling(h.disk, h.session.value, |h.session.value.journal.value.files|)
    ensures !Idle(h.session.value) && Perform(root, h.disk, h.session.value, OpClose([])).call.ok
  {
    var j := h.session.value.journal.value;
    ReadyToClose(q, h);
    NamesDistinct(j);
    hide HostOk, Valid, PromoteAll, Filling, AllFinished, FreeNames;
    PromoteAllSucceeds(h.disk, j, |j.files|);
  }

  // ---------------------------------------------------------------- taking up an interrupted receive

  /** Every partial the journal claims something of is still there. */
  predicate ClaimsThere(d: Disk, j: Journal) {
    forall f :: 0 <= f < |j.files| && j.files[f].committed > 0 ==> Key(j.transferId, f) in d.parts
  }

  lemma {:induction false} SeedsExactly(d: Disk, j: Journal, n: nat)
    requires n <= |j.files| && JournalOk({}, d, j.transferId, Whole(j)) && NamesOk(d)
    ensures SeedsFor(d, j, n).Some? <==> forall f :: 0 <= f < n && j.files[f].committed > 0 ==> Key(j.transferId, f) in d.parts
    decreases n
  {
    hide Valid, CommittedBytes, Backed;
    if n > 0 {
      SeedsExactly(d, j, n - 1);
      SeedExactly(d, j, n - 1);
    }
  }

  lemma SeedExactly(d: Disk, j: Journal, f: nat)
    requires f < |j.files| && JournalOk({}, d, j.transferId, Whole(j)) && NamesOk(d)
    ensures SeedFor(d, j.transferId, f, j.files[f]).Some? <==> j.files[f].committed > 0 ==> Key(j.transferId, f) in d.parts
  {
    assert FileStateOk(j.files[f], f, j.files[0].entry.blockSize) && Backed({}, d, j.transferId, f, j.files[f]) by {
      hide Backed, FileStateOk, SafePath.Validate;
    }
    hide Valid, CommittedBytes, Blocks;
  }

  /** The manifest a journal is bound to is accepted as it is. */
  lemma BoundManifest(j: Journal)
    requires Valid(j)
    ensures var m := j.fingerprint.manifest;
            SafePath.Validate(m) == Some(m) && m.transferId == j.transferId != [] && j.fingerprint == Fingerprint(m)
  {
    hide SafePath.ManifestOk, FileStateOk;
    SafePath.ValidateIdempotent(Manifest(j.transferId, Entries(j.files), TotalSize(j.files)));
  }

  /** A session that may resume takes the journal as it is. */
  lemma AdoptSucceeds(root: nat, d: Disk, id: Id, now: int)
    requires DiskOk({}, d) && id in d.journals && d.journals[id].Whole? && d.journals[id].j.destination == root
    ensures var j := d.journals[id].j;
            Perform(root, d, NewSession(id, true), OpPrepare(j.fingerprint.manifest, now, NoFault))
            == Result(Nothing(d), Resumer(id, j))
  {
    hide NamesOk, Backed;
    var j := d.journals[id].j;
    assert JournalOk({}, d, id, d.journals[id]);
    BoundManifest(j);
    hide Valid, SafePath.Validate, JournalOk;
    assert Valid(j) && j.transferId == id && NoClash(j.fingerprint.manifest.files) by { WholeJournal(d, id); }
  }

  lemma WholeJournal(d: Disk, id: Id)
    requires DiskOk({}, d) && id in d.journals
    ensures d.journals[id].Whole? && Valid(d.journals[id].j) && d.journals[id].j.transferId == id && NamesOk(d)
    ensures NoClash(d.journals[id].j.fingerprint.manifest.files) && JournalOk({}, d, id, d.journals[id])
  {
    hide Valid, NamesOk, Backed;
    assert JournalOk({}, d, id, d.journals[id]);
  }

  /** An authorized session negotiates exactly when every claimed partial is still there; if not,
      it stops. */
  lemma ResumeNegotiatesExactly(root: nat, d: Disk, s: Session, secret: nat)
    requires DiskOk({}, d) && SessionOk({}, d, s) && !Idle(s) && s.journal.Some? && s.resumed && s.sinks == map[]
    requires AuthorizedFor(s, s.journal.value.transferId, s.journal.value.transferId)
    ensures var j := s.journal.value;
            var r := Perform(root, d, s, OpNegotiate(j.fingerprint.manifest, secret, NoFault));
            && (ClaimsThere(d, j) ==> r.session.seeds.Some? && r.session == s.(seeds := r.session.seeds) && r.call.disk == d)
            && (!ClaimsThere(d, j) ==> r.session.flags.stopped)
  {
    var j := s.journal.value;
    assert NamesOk(d) && Valid(j) && JournalOk({}, d, j.transferId, Whole(j)) by { RunningJournal(d, s); }
    BoundManifest(j);
    hide DiskOk, SessionOk, Valid, SafePath.Validate, JournalOk, NamesOk, ResumeStateFor, AuthorizedFor, Negotiate,
      SeedsFor;
    SeedsExactly(d, j, |j.files|);
    AuthorizedSeeds(d, s);
    NegotiateResumed(root, d, s, j.fingerprint.manifest, secret);
  }

  lemma RunningJournal(d: Disk, s: Session)
    requires DiskOk({}, d) && SessionOk({}, d, s) && s.journal.Some?
    ensures NamesOk(d) && Valid(s.journal.value) && JournalOk({}, d, s.journal.value.transferId, Whole(s.journal.value))
  {
    SessionJournal({}, d, s);
    hide Valid, JournalOk, SessionOk, NamesOk;
  }

  /** A resumed session takes its seeds, or stops if there are none; no credential is attached. */
  lemma NegotiateResumed(root: nat, d: Disk, s: Session, m: Manifest, secret: nat)
    requires !Idle(s) && s.resumed && s.journal.Some? && SafePath.Validate(m) == Some(m)
    requires m.transferId == s.journal.value.transferId && s.journal.value.fingerprint == Fingerprint(m)
    ensures var seeds := ResumeStateFor(d, s, m);
            Perform(root, d, s, OpNegotiate(m, secret, NoFault))
            == if seeds == None then Result(Refuse(d), Stop(s)) else Result(Nothing(d), s.(seeds := seeds))
  {
    hide SafePath.Validate, ResumeStateFor, SaveJournal;
  }

  lemma AuthorizedSeeds(d: Disk, s: Session)
    requires s.journal.Some?
    requires AuthorizedFor(s, s.journal.value.transferId, s.journal.value.transferId)
    requires var j := s.journal.value;
             j.fingerprint == Fingerprint(j.fingerprint.manifest) && j.fingerprint.manifest.transferId == j.transferId
    ensures ResumeStateFor(d, s, s.journal.value.fingerprint.manifest) == SeedsFor(d, s.journal.value, |s.journal.value.files|)
  {
    hide HasProgress, SeedsFor;
  }

  /** A finished session closes exactly when no final name is taken. */
  lemma ClosesExactly(q: set<Id>, d: Disk, s: Session)
    requires DiskOk(q, d) && SessionOk(q, d, s) && !Idle(s) && AllFinished(s)
    ensures Close(d, s, []).call.ok <==> FreeNames(d, s.journal.value)
  {
    var j := s.journal.value;
    assert Valid(j) by { hide Valid, SinkOk, SeedOk; }
    hide Valid, DiskOk;
    forall f | 0 <= f < |j.files| ensures Key(j.transferId, f) in d.parts {
      assert f in s.sinks;
      SinkInPlace(q, d, s, f);
    }
    NamesDistinct(j);
    hide SessionOk, AllFinished, PromoteAll, FreeNames;
    if FreeNames(d, j) { PromoteAllSucceeds(d, j, |j.files|); } else { TakenNameStops(d, j, |j.files|); }
  }

  lemma {:induction false} TakenNameStops(d: Disk, j: Journal, n: nat)
    requires n <= |j.files|
    ensures PromoteAll(d, j, n, []).ok ==> forall f :: 0 <= f < n ==> j.files[f].entry.name !in d.finals
    ensures forall name :: name in d.finals ==> name in PromoteAll(d, j, n, []).disk.finals
    ensures n == |j.files| && !FreeNames(d, j) ==> !PromoteAll(d, j, n, []).ok
  {
    if n > 0 { TakenNameStops(d, j, n - 1); }
  }

  // ---------------------------------------------------------------- main results

  /** Every file of these entries is under its final name, and the journal is gone. */
  predicate DeliveredAll(d: Disk, id: Id, entries: seq<FileEntry>) {
    && id !in d.journals
    && forall f :: 0 <= f < |entries| ==>
         && entries[f].name in d.finals && d.finals[entries[f].name] in d.files
         && d.files[d.finals[entries[f].name]].data == entries[f].digest.pre
  }

  lemma CloseIsHonest(h: Host)
    ensures forall q: set<Id> :: HonestEvent(q, h, Do(OpClose([])))
  {}

  lemma DoClose(root: nat, h: Host)
    requires h.session.Some? && !Idle(h.session.value)
    ensures var r := Perform(root, h.disk, h.session.value, OpClose([]));
            Apply(root, h, Do(OpClose([]))) == Host(r.call.disk, Some(r.session))
  {}

  lemma DeliveredEntries(d: Disk, j: Journal)
    requires j.transferId !in d.journals
    requires forall f :: 0 <= f < |j.files| ==>
               && j.files[f].entry.name in d.finals && d.finals[j.files[f].entry.name] in d.files
               && d.files[d.finals[j.files[f].entry.name]].data == j.files[f].entry.digest.pre
    ensures DeliveredAll(d, j.transferId, Entries(j.files))
  {}

  /** From a session with nothing opened yet to the end. */
  lemma FinishFrom(id: Id, entries: seq<FileEntry>, root: nat, start: Disk, es: seq<Event>) returns (all: seq<Event>)
    requires DiskOk({}, start) && Going(id, entries, root, start, es)
    requires Filling(Exec(root, start, es).disk, Exec(root, start, es).session.value, 0)
    ensures HonestRun({id}, root, start, all) && DeliveredAll(Exec(root, start, all).disk, id, entries)
  {
    hide Exec, HonestRun, Apply, HonestEvent, HostOk, Filling, DiskOk, Perform, DeliveredAll;
    all := AllFiles(id, entries, root, start, es, 0);
    var h := Exec(root, start, all);
    CloseSucceeds({id}, root, h);
    PromotedFilesAreTheSource(root, start, all, []);
    DeliveredEntries(Perform(root, h.disk, h.session.value, OpClose([])).call.disk, h.session.value.journal.value);
    DoClose(root, h);
    CloseIsHonest(h);
    all := Snoc({id}, root, start, all, Do(OpClose([])));
  }

  lemma ResumeFilling(d: Disk, s: Session, j: Journal, seeds: Option<seq<Seed>>)
    requires s.journal == Some(j) && s.resumed && s.sinks == map[] && !Idle(s) && seeds.Some?
    requires ClaimsThere(d, j) && FreeNames(d, j)
    ensures Filling(d, s.(seeds := seeds), 0)
  {}

  /** The session a resume starts with, once prepared. */
  function Resumer(id: Id, j: Journal): Session {
    NewSession(id, true).(flags := Flags(true, false, false), journal := Some(j), resumed := true)
  }

  lemma DoIs(root: nat, h: Host, op: Op)
    requires h.session.Some?
    ensures var r := Perform(root, h.disk, h.session.value, op); Apply(root, h, Do(op)) == Host(r.call.disk, Some(r.session))
  {}

  lemma BeginIs(root: nat, h: Host, id: Id, authorized: bool)
    requires h.session == None
    ensures Apply(root, h, Begin(id, authorized)) == Host(h.disk, Some(NewSession(id, authorized)))
    ensures forall q: set<Id> :: HonestEvent(q, h, Begin(id, authorized))
  {}

  /** Preparing with the manifest of a journal that is there is honest. */
  lemma ResumeIsHonest(d: Disk, id: Id, s: Session, now: int, secret: nat)
    requires DiskOk({id}, d) && id in d.journals
    ensures var m := d.journals[id].j.fingerprint.manifest;
            Honest({id}, s, OpPrepare(m, now, NoFault)) && Honest({id}, s, OpNegotiate(m, secret, NoFault))
  {
    assert JournalOk({id}, d, id, d.journals[id]);
    var j := d.journals[id].j;
    assert Valid(j) && SourceSized(j) by { hide Valid, Backed; }
    hide DiskOk, JournalOk;
    BoundManifest(j);
    var m := j.fingerprint.manifest;
    assert m.files == SafePath.CanonicalFiles(Entries(j.files)) by { hide SafePath.ManifestOk, FileStateOk; }
    hide Valid;
    hide SafePath.Validate;
    forall f | 0 <= f < |m.files| ensures |m.files[f].digest.pre| == m.files[f].size {
      assert m.files[f].digest == j.files[f].entry.digest && m.files[f].size == j.files[f].entry.size;
    }
  }

  /** Whatever an interrupted receive has left - after any crashes, faults, aborts and other
      sessions - if its claimed partials are still there and its final names are free, one more
      authorized session without faults delivers every file, byte for byte. */
  lemma InterruptedReceiveFinishes(root: nat, start: Disk, es: seq<Event>, id: Id,
      secret: nat) returns (all: seq<Event>)
    requires DiskOk({id}, start) && DiskOk({}, start) && HonestRun({id}, root, start, es)
    requires var h := Exec(root, start, es);
             && h.session == None && id in h.disk.journals && h.disk.journals[id].Whole?
             && h.disk.journals[id].j.destination == root
             && ClaimsThere(h.disk, h.disk.journals[id].j) && FreeNames(h.disk, h.disk.journals[id].j)
    ensures HonestRun({id}, root, start, all)
    ensures DeliveredAll(Exec(root, start, all).disk, id, Entries(Exec(root, start, es).disk.journals[id].j.files))
  {
    hide Exec, HonestRun, Apply, HostOk, Filling, DiskOk, Perform, ClaimsThere, FreeNames, SessionOk, DeliveredAll;
    ReachableOk({id}, root, start, es);
    NoTrustNeeded(root, start, es);
    ReachableOk({}, root, start, es);
    var d := Exec(root, start, es).disk;
    var j := d.journals[id].j;
    var m, s := j.fingerprint.manifest, Resumer(id, j);
    assert DiskOk({id}, d) && DiskOk({}, d) by { HostDisks(Exec(root, start, es), id); }
    WholeJournal(d, id);
    BoundManifest(j);
    BeginIs(root, Exec(root, start, es), id, true);
    all := Snoc({id}, root, start, es, Begin(id, true));
    ResumeIsHonest(d, id, NewSession(id, true), 1, secret);
    ResumeIsHonest(d, id, s, 1, secret);
    AdoptSucceeds(root, d, id, 1);
    DoIs(root, Host(d, Some(NewSession(id, true))), OpPrepare(m, 1, NoFault));
    all := Snoc({id}, root, start, all, Do(OpPrepare(m, 1, NoFault)));
    assert Exec(root, start, all) == Host(d, Some(s));
    RunningSession(root, start, all);
    ResumeNegotiatesExactly(root, d, s, secret);
    DoIs(root, Host(d, Some(s)), OpNegotiate(m, secret, NoFault));
    var seeds := Perform(root, d, s, OpNegotiate(m, secret, NoFault)).session.seeds;
    all := Snoc({id}, root, start, all, Do(OpNegotiate(m, secret, NoFault)));
    assert Exec(root, start, all) == Host(d, Some(s.(seeds := seeds)));
    ReachableOk({id}, root, start, all);
    ResumeFilling(d, s, j, seeds);
    all := FinishFrom(id, Entries(j.files), root, start, all);
  }

  lemma HostDisks(h: Host, id: Id)
    requires HostOk({id}, h) && HostOk({}, h)
    ensures DiskOk({id}, h.disk) && DiskOk({}, h.disk)
  {
    hide DiskOk;
  }

  lemma RunningSession(root: nat, start: Disk, es: seq<Event>)
    requires DiskOk({}, start) && Exec(root, start, es).session.Some? && !Idle(Exec(root, start, es).session.value)
    ensures SessionOk({}, Exec(root, start, es).disk, Exec(root, start, es).session.value)
  {
    hide Exec, DiskOk, SessionOk;
    NoTrustNeeded(root, start, es);
    ReachableOk({}, root, start, es);
  }

  // ---------------------------------------------------------------- a first receive

  /** Nothing on the disk belongs to the transfer or is in its way. */
  predicate NothingThere(d: Disk, m: Manifest) {
    && m.transferId !in d.journals && (forall k :: k in d.parts ==> k.id != m.transferId)
    && (forall f :: 0 <= f < |m.files| ==> m.files[f].name !in d.finals)
  }

  lemma NewJournal(m: Manifest, root: nat)
    requires D.Receivable(m, root)
    ensures New(m, root, 1).Some?
    ensures var j := New(m, root, 1).value;
            && Valid(j) && Entries(j.files) == m.files && |j.files| == |m.files| && j.transferId == m.transferId
            && j.fingerprint == Fingerprint(m) && j.secret == None
            && (forall f :: 0 <= f < |j.files| ==> j.files[f] == FileState(m.files[f], 0, None))
  {
    hide Valid, SafePath.Validate;
    assert Entries(New(m, root, 1).value.files) == m.files;
  }

  /** The session a first receive starts with, once prepared, and once negotiated. */
  function Creator(j: Journal): Session {
    NewSession([], false).(flags := Flags(true, false, false), journal := Some(j))
  }

  lemma FirstNegotiation(root: nat, d: Disk, m: Manifest, secret: nat)
    requires D.Receivable(m, root)
    ensures New(m, root, 1).Some?
    ensures var j := New(m, root, 1).value;
            var r := Perform(root, d, Creator(j), OpNegotiate(m, secret, NoFault));
            && r.session.seeds.Some? && r.session == Creator(j.(secret := Some(secret))).(seeds := r.session.seeds)
            && r.call.disk.parts == d.parts && r.call.disk.finals == d.finals
  {
    NewJournal(m, root);
    hide SafePath.Validate, Valid, SeedsFor, New;
    var j := New(m, root, 1).value;
    D.FreshSeeds(d, j, |j.files|);
    SecretKeepsValid(j, secret);
    assert SafePath.Validate(m) == Some(m) by { ReceivableIs(m, root); }
  }

  lemma ReceivableIs(m: Manifest, root: nat)
    requires D.Receivable(m, root)
    ensures SafePath.Validate(m) == Some(m) && m.transferId != []
  {}

  /** A first receive without faults into a store that has nothing of the transfer delivers every
      file, byte for byte. */
  lemma FirstReceiveFinishes(root: nat, start: Disk, es: seq<Event>, m: Manifest, secret: nat) returns (all: seq<Event>)
    requires DiskOk({m.transferId}, start) && DiskOk({}, start) && HonestRun({m.transferId}, root, start, es)
    requires Exec(root, start, es).session == None && NothingThere(Exec(root, start, es).disk, m)
    requires D.Receivable(m, root) && forall f :: 0 <= f < |m.files| ==> |m.files[f].digest.pre| == m.files[f].size
    ensures HonestRun({m.transferId}, root, start, all)
    ensures DeliveredAll(Exec(root, start, all).disk, m.transferId, m.files)
  {
    hide Exec, HonestRun, Apply, HostOk, Filling, DiskOk, Perform, SessionOk, DeliveredAll, New, D.Receivable,
      NothingThere;
    var id, d := m.transferId, Exec(root, start, es).disk;
    NewJournal(m, root);
    var j := New(m, root, 1).value;
    var d1 := d.(journals := d.journals[id := Whole(j)], temp := None);
    BeginIs(root, Exec(root, start, es), [], false);
    all := Snoc({id}, root, start, es, Begin([], false));
    assert id !in d.journals by { NothingJournaled(d, m); }
    D.CreatePerform(d, m, root);
    FirstIsHonest(m, root, NewSession([], false), secret);
    FirstIsHonest(m, root, Creator(j), secret);
    DoIs(root, Host(d, Some(NewSession([], false))), OpPrepare(m, 1, NoFault));
    all := Snoc({id}, root, start, all, Do(OpPrepare(m, 1, NoFault)));
    assert Exec(root, start, all) == Host(d1, Some(Creator(j)));
    FirstNegotiation(root, d1, m, secret);
    DoIs(root, Host(d1, Some(Creator(j))), OpNegotiate(m, secret, NoFault));
    var r := Perform(root, d1, Creator(j), OpNegotiate(m, secret, NoFault));
    all := Snoc({id}, root, start, all, Do(OpNegotiate(m, secret, NoFault)));
    ReachableOk({id}, root, start, all);
    StillFilling(d, r.call.disk, m, j.(secret := Some(secret)), r.session.seeds);
    all := FinishFrom(id, m.files, root, start, all);
  }

  lemma NothingJournaled(d: Disk, m: Manifest)
    requires NothingThere(d, m)
    ensures m.transferId !in d.journals
  {}

  lemma StillFilling(d: Disk, e: Disk, m: Manifest, j: Journal, seeds: Option<seq<Seed>>)
    requires NothingThere(d, m) && e.parts == d.parts && e.finals == d.finals
    requires Entries(j.files) == m.files && j.transferId == m.transferId && seeds.Some?
    ensures Filling(e, Creator(j).(seeds := seeds), 0)
  {
    forall f | 0 <= f < |j.files| ensures j.files[f].entry.name !in d.finals { EntryAt(j, f); }
  }

  lemma FirstIsHonest(m: Manifest, root: nat, s: Session, secret: nat)
    requires D.Receivable(m, root) && forall f :: 0 <= f < |m.files| ==> |m.files[f].digest.pre| == m.files[f].size
    ensures Honest({m.transferId}, s, OpPrepare(m, 1, NoFault))
    ensures Honest({m.transferId}, s, OpNegotiate(m, secret, NoFault))
  {
    ReceivableIs(m, root);
    hide SafePath.Validate;
  }

  // ---------------------------------------------------------------- discarding, and whose journal it is

  /** Discarding a transfer makes room for receiving it afresh, and touches nothing else. */
  lemma DiscardMakesRoom(d: Disk, m: Manifest)
    requires forall f :: 0 <= f < |m.files| ==> m.files[f].name !in d.finals
    ensures var e := DiscardCall(d, m.transferId).disk;
            && NothingThere(e, m) && e.files == d.files && e.finals == d.finals
            && (forall k :: k in d.parts && k.id != m.transferId ==> k in e.parts && e.parts[k] == d.parts[k])
            && (forall id :: id in d.journals && id != m.transferId ==> id in e.journals && e.journals[id] == d.journals[id])
  {}

  /** A journal that is there is taken up exactly by an authorized session, at its own
      destination, for the manifest it is bound to. */
  lemma AdoptedExactly(root: nat, d: Disk, s: Session, m: Manifest, now: int, fault: JournalFault)
    requires DiskOk({}, d) && !Idle(s) && !s.flags.prepared && s.journal == None
    requires SafePath.Validate(m) == Some(m) && m.transferId in d.journals
    ensures var j, r := d.journals[m.transferId].j, Perform(root, d, s, OpPrepare(m, now, fault));
            && r.call.disk == d
            && (r.session.journal == Some(j) && !Idle(r.session) && r.session.resumed
                <==> j.fingerprint == Fingerprint(m) && j.destination == root && AuthorizedFor(s, m.transferId, m.transferId))
            && (r.session.journal.Some? ==> r.session.journal == Some(j))
  {
    WholeJournal(d, m.transferId);
    var j := d.journals[m.transferId].j;
    IdIsHex(j);
    hide DiskOk, Valid, JournalOk, NamesOk, SafePath.Validate, AuthorizedFor, AdoptJournal, Perform, Prepare;
    PrepareFound(root, d, s, m, now, fault);
    AdoptsExactly(d, s.(flags := s.flags.(prepared := true)), m, root, j);
  }

  /** With a usable journal on the disk, preparing is adopting it or refusing. */
  lemma PrepareFound(root: nat, d: Disk, s: Session, m: Manifest, now: int, fault: JournalFault)
    requires !Idle(s) && !s.flags.prepared && s.journal == None && m.transferId != []
    requires SafePath.Validate(m) == Some(m) && m.transferId in d.journals
    requires d.journals[m.transferId].Whole? && Valid(d.journals[m.transferId].j)
    ensures var s1 := s.(flags := s.flags.(prepared := true));
            Perform(root, d, s, OpPrepare(m, now, fault))
            == if NoClash(m.files) then AdoptJournal(d, s1, m, root, d.journals[m.transferId].j)
               else Result(Refuse(d), Stop(s1))
  {
    hide Valid, SafePath.Validate, AdoptJournal, CreateJournal, Collides;
  }

  lemma AdoptsExactly(d: Disk, s: Session, m: Manifest, root: nat, j: Journal)
    requires !Idle(s) && s.journal == None && j.transferId == m.transferId
    ensures var r := AdoptJournal(d, s, m, root, j);
            && r.call.disk == d && (r.session.journal.Some? ==> r.session.journal == Some(j))
            && (r.session.journal == Some(j) && !Idle(r.session) && r.session.resumed
                <==> j.fingerprint == Fingerprint(m) && j.destination == root && AuthorizedFor(s, m.transferId, m.transferId))
  {}

  lemma IdIsHex(j: Journal)
    requires Valid(j)
    ensures j.transferId != []
  {
    hide SafePath.Validate, FileStateOk;
  }
}
