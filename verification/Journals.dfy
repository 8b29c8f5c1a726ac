/** The receive journal: per-file durable checkpoints and the optional digest state that
    covers exactly the committed blocks. */
module Journals {
  import opened Wire
  import opened Geometry
  import SafePath

  /** A stored streaming digest, represented by the bytes it has been fed. `native` says that
      this runtime wrote it and can restore it. */
  datatype Checkpoint = Checkpoint(native: bool, blocks: int, bytes: int, state: seq<byte>)

  datatype FileState = FileState(entry: FileEntry, committed: int, checkpoint: Option<Checkpoint>)

  datatype Journal = Journal(
    transferId: seq<byte>, fingerprint: Fingerprint, destination: nat, secret: Option<nat>,
    created: int, updated: int, files: seq<FileState>)

  function Entries(files: seq<FileState>): seq<FileEntry> {
    seq(|files|, i requires 0 <= i < |files| => files[i].entry)
  }

  function TotalSize(files: seq<FileState>): int {
    if files == [] then 0 else TotalSize(files[..|files| - 1]) + files[|files| - 1].entry.size
  }

  /** Whole committed blocks, the last one capped at the file size. */
  function CommittedBytes(f: FileState): int {
    var bytes := f.committed * f.entry.blockSize;
    if bytes > f.entry.size then f.entry.size else bytes
  }

  predicate CheckpointOk(f: FileState) {
    f.checkpoint.Some? ==>
      && f.checkpoint.value.blocks == f.committed
      && f.checkpoint.value.bytes == CommittedBytes(f)
  }

  predicate FileStateOk(f: FileState, i: int, blockSize: int) {
    && f.entry.idx == i && Shaped(f.entry) && 0 <= f.entry.lastModified && f.entry.blockSize == blockSize
    && 0 <= f.committed <= f.entry.blocks
    && CheckpointOk(f)
  }

  /** What decoding and encoding both insist on. The stored fingerprint must be the one
      recomputed from the journal's own file entries, which in turn must form a valid
      manifest; that is also what keeps the file names distinct. */
  predicate Valid(j: Journal) {
    && LowerHex(j.transferId, 32)
    && 0 < j.created <= j.updated
    && j.files != []
    && SafePath.Validate(Manifest(j.transferId, Entries(j.files), TotalSize(j.files))) == Some(j.fingerprint.manifest)
    && (forall i :: 0 <= i < |j.files| ==> FileStateOk(j.files[i], i, j.files[0].entry.blockSize))
  }

  /** Files of which nothing is committed. */
  function Untouched(files: seq<FileEntry>): seq<FileState> {
    seq(|files|, i requires 0 <= i < |files| => FileState(files[i], 0, None))
  }

  function New(m: Manifest, destination: nat, now: int): (r: Option<Journal>)
    ensures r.Some? ==> r.value.transferId == m.transferId && r.value.secret == None && |r.value.files| == |m.files|
  {
    var j := Journal(m.transferId, Fingerprint(m), destination, None, now, now, Untouched(m.files));
    if Valid(j) then Some(j) else None
  }

  /** Advances one file's checkpoint; None when the index, the range or the direction is wrong. */
  function CommitBlocks(j: Journal, f: int, blocks: int, now: int): Option<Journal> {
    if f < 0 || f >= |j.files| then None
    else if blocks < 0 || blocks > j.files[f].entry.blocks then None
    else if blocks < j.files[f].committed then None
    else Some(j.(files := j.files[f := j.files[f].(committed := blocks, checkpoint := None)], updated := now))
  }

  function SetCheckpoint(j: Journal, f: int, cp: Option<Checkpoint>): Option<Journal> {
    if f < 0 || f >= |j.files| then None
    else if cp.Some? && cp.value.blocks != j.files[f].committed then None
    else Some(j.(files := j.files[f := j.files[f].(checkpoint := cp)]))
  }

  /** The committed byte count is where the block of that index starts. */
  lemma CommittedBytesIsPos(f: FileState)
    requires Shaped(f.entry) && 0 <= f.committed
    ensures CommittedBytes(f) == Pos(f.entry.size, f.entry.blockSize, f.committed)
  {
    PosIsProduct(f.entry.size, f.entry.blockSize, f.committed);
  }

  const TWO64: int := 0x1_0000_0000_0000_0000

  /** A product of two int64 values, wrapped as the machine does. */
  function Wrap64(n: int): int {
    var r := n % TWO64;
    if r > MAX_INT64 then r - TWO64 else r
  }

  /** The count as the code computes it, in int64 arithmetic. */
  function CommittedBytes64(f: FileState): int {
    var bytes := Wrap64(f.committed * f.entry.blockSize);
    if bytes > f.entry.size then f.entry.size else bytes
  }

  lemma ProductBounds(f: FileState)
    requires Shaped(f.entry) && 0 <= f.committed <= f.entry.blocks
    ensures 0 <= f.committed * f.entry.blockSize < f.entry.size + f.entry.blockSize
    ensures f.committed < f.entry.blocks ==> f.committed * f.entry.blockSize < f.entry.size
    ensures f.committed == f.entry.blocks ==> f.entry.size <= f.committed * f.entry.blockSize
  {
    var e, c := f.entry, f.committed;
    MulNonNegative(c, e.blockSize);
    BlockRange(e.size, e.blockSize, c);
    if c == e.blocks && c > 0 {
      BlockRange(e.size, e.blockSize, c - 1);
      PosIsProduct(e.size, e.blockSize, c);
      assert c * e.blockSize == (c - 1) * e.blockSize + e.blockSize;
    }
  }

  /** The next multiple of `bs` from `size` up is within `max` exactly when `size` is at most the
      largest multiple within it. */
  lemma RoundedUpFits(size: nat, blocks: nat, bs: int, max: nat)
    requires 0 < bs && size <= blocks * bs < size + bs
    ensures blocks * bs <= max <==> size <= max / bs * bs
  {
    var q := max / bs;
    assert max == q * bs + max % bs;
    if blocks <= q {
      MulMonotone(blocks, q, bs);
    } else {
      MulMonotone(q + 1, blocks, bs);
      assert (q + 1) * bs == q * bs + bs;
    }
  }

  /** For sizes within int64 the machine computes the true count exactly when the file is not
      fully committed or its size is at most the largest multiple of the block size in int64. */
  lemma CommittedBytesFitsExactly(f: FileState)
    requires Shaped(f.entry) && f.entry.size <= MAX_INT64 && 0 <= f.committed <= f.entry.blocks
    ensures CommittedBytes64(f) == CommittedBytes(f) <==>
            f.committed < f.entry.blocks || f.entry.size <= MAX_INT64 / f.entry.blockSize * f.entry.blockSize
  {
    hide Blocks;
    ProductBounds(f);
    var p, e := f.committed * f.entry.blockSize, f.entry;
    if f.committed == e.blocks { RoundedUpFits(e.size, f.committed, e.blockSize, MAX_INT64); }
    if p <= MAX_INT64 {
      assert Wrap64(p) == p;
    } else {
      assert p % TWO64 == p && Wrap64(p) < 0;
    }
  }

  /** A file of the largest int64 size in blocks of two bytes, fully committed. */
  const LargestFile: FileState :=
    FileState(FileEntry(0, [0x61], MAX_INT64, 0, 2, 0x4000_0000_0000_0000, Sha([])), 0x4000_0000_0000_0000, None)

  /** It does happen: the state is well formed and its count comes out negative. */
  lemma LargestFileWraps()
    ensures FileStateOk(LargestFile, 0, 2)
    ensures CommittedBytes(LargestFile) == MAX_INT64 && CommittedBytes64(LargestFile) == -MAX_INT64 - 1
  {}

  lemma {:induction false} TotalSizeSame(a: seq<FileState>, b: seq<FileState>)
    requires Entries(a) == Entries(b)
    ensures TotalSize(a) == TotalSize(b)
    decreases |a|
  {
    assert |Entries(a)| == |a| && |Entries(b)| == |b|;
    if a != [] {
      assert forall i :: 0 <= i < |a| ==> Entries(a)[i] == a[i].entry && Entries(b)[i] == b[i].entry;
      TotalSizeSame(a[..|a| - 1], b[..|b| - 1]);
    }
  }

  /** One checkpoint as the destination records it. */
  function Record(j: Journal, f: int, blocks: int, digest: Option<seq<byte>>, now: int): (r: Option<Journal>)
    ensures r.Some? ==> r.value == j.(files := r.value.files, updated := now)
  {
    match CommitBlocks(j, f, blocks, now)
    case None => None
    case Some(j1) =>
      SetCheckpoint(j1, f, if digest == None then None
                           else Some(Checkpoint(true, blocks, CommittedBytes(j1.files[f]), digest.value)))
  }

  /** Recording forward progress keeps a journal valid exactly when the clock has not gone
      back behind the journal's creation. */
  lemma RecordKeepsValid(j: Journal, f: int, blocks: int, digest: Option<seq<byte>>, now: int)
    requires Valid(j) && 0 <= f < |j.files| && j.files[f].committed <= blocks <= j.files[f].entry.blocks
    ensures Record(j, f, blocks, digest, now).Some?
    ensures Valid(Record(j, f, blocks, digest, now).value) <==> j.created <= now
  {
    hide SafePath.Validate, Blocks;
    var k := Record(j, f, blocks, digest, now).value;
    assert Entries(k.files) == Entries(j.files);
    TotalSizeSame(k.files, j.files);
    assert FileStateOk(j.files[f], f, j.files[0].entry.blockSize);
    forall i | 0 <= i < |k.files| ensures FileStateOk(k.files[i], i, k.files[0].entry.blockSize) {
      assert FileStateOk(j.files[i], i, j.files[0].entry.blockSize);
    }
  }

  // ---------------------------------------------------------------- the journal in memory

  /** The journal a destination holds and updates in place. */
  class Held {
    var journal: Journal

    constructor (j: Journal)
      ensures journal == j
    {
      journal := j;
    }

    method Commit(f: int, blocks: int, now: int) returns (ok: bool)
      modifies this
      ensures ok <==> CommitBlocks(old(journal), f, blocks, now).Some?
      ensures journal == if ok then CommitBlocks(old(journal), f, blocks, now).value else old(journal)
    {
      if f < 0 || f >= |journal.files| { return false; }
      var s := journal.files[f];
      if blocks < 0 || blocks > s.entry.blocks { return false; }
      if blocks < s.committed { return false; }
      s := s.(committed := blocks);
      s := s.(checkpoint := None);
      journal := journal.(files := journal.files[f := s]);
      journal := journal.(updated := now);
      ok := true;
    }

    method AttachCheckpoint(f: int, cp: Option<Checkpoint>) returns (ok: bool)
      modifies this
      ensures ok <==> SetCheckpoint(old(journal), f, cp).Some?
      ensures journal == if ok then SetCheckpoint(old(journal), f, cp).value else old(journal)
    {
      if f < 0 || f >= |journal.files| { return false; }
      if cp.Some? && cp.value.blocks != journal.files[f].committed { return false; }
      journal := journal.(files := journal.files[f := journal.files[f].(checkpoint := cp)]);
      ok := true;
    }
  }

  /** The validation loop over the file entries. */
  method CheckFiles(j: Journal) returns (ok: bool)
    requires j.files != []
    ensures ok <==> forall i :: 0 <= i < |j.files| ==> FileStateOk(j.files[i], i, j.files[0].entry.blockSize)
  {
    var i := 0;
    while i < |j.files|
      invariant 0 <= i <= |j.files|
      invariant forall k :: 0 <= k < i ==> FileStateOk(j.files[k], k, j.files[0].entry.blockSize)
    {
      var s := j.files[i];
      var e := s.entry;
      if e.idx != i { return false; }
      if e.size < 0 || e.lastModified < 0 || e.blockSize <= 0 || e.blocks < 0 { return false; }
      if e.blockSize > MAX_MANIFEST_BLOCK_BYTES { return false; }
      var want := 0;
      if e.size > 0 { want := (e.size - 1) / e.blockSize + 1; }
      if e.blocks != want { return false; }
      if e.blockSize != j.files[0].entry.blockSize { return false; }
      if s.committed < 0 || s.committed > e.blocks { return false; }
      if s.checkpoint.Some? {
        if s.checkpoint.value.blocks != s.committed { return false; }
        var bytes := s.checkpoint.value.blocks * e.blockSize;
        if bytes > e.size { bytes := e.size; }
        if s.checkpoint.value.bytes != bytes { return false; }
      }
      i := i + 1;
    }
    ok := true;
  }
}
