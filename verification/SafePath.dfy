/** Canonical relative paths and manifest validation. Paths are byte strings: every character
    the rules mention is ASCII, so testing bytes and testing decoded runes agree. */
module SafePath {
  import opened Wire
  import Geometry

  const MAX_FILES := 4096
  const MAX_PATH_BYTES := 1024
  const MAX_PATH_DEPTH := 32
  const MAX_SEGMENT_BYTES := 255

  const SLASH: byte := 0x2F
  const BACKSLASH: byte := 0x5C
  const DOT: byte := 0x2E
  const SPACE: byte := 0x20
  const COLON: byte := 0x3A

  type Bytes = seq<byte>

  predicate IsLetter(b: byte) { 0x41 <= b <= 0x5A || 0x61 <= b <= 0x7A }

  function Lower(b: byte): byte { if 0x41 <= b <= 0x5A then b + 0x20 else b }

  /** Case folding of a path, restricted to ASCII letters. */
  function Fold(s: Bytes): Bytes {
    seq(|s|, i requires 0 <= i < |s| => Lower(s[i]))
  }

  function Canonical(s: Bytes): Bytes {
    seq(|s|, i requires 0 <= i < |s| => if s[i] == BACKSLASH then SLASH else s[i])
  }

  /** The segments between slashes; always at least one. */
  function Split(s: Bytes): (r: seq<Bytes>)
    ensures |r| >= 1
  {
    if s == [] then [[]]
    else
      var rest := Split(s[1..]);
      if s[0] == SLASH then [[]] + rest else [[s[0]] + rest[0]] + rest[1..]
  }

  // < > : " | ? * and the control characters
  predicate UnsafeByte(b: byte) {
    b <= 0x1F || b in [0x3C, 0x3E, 0x3A, 0x22, 0x7C, 0x3F, 0x2A]
  }

  predicate HasStem(s: Bytes, stem: Bytes) {
    |stem| <= |s| && Fold(s[..|stem|]) == stem && (|s| == |stem| || s[|stem|] == DOT)
  }

  /** con, prn, aux, nul, com1-com9 and lpt1-lpt9, alone or before a dot. */
  predicate Reserved(s: Bytes) {
    || HasStem(s, [0x63, 0x6F, 0x6E])
    || HasStem(s, [0x70, 0x72, 0x6E])
    || HasStem(s, [0x61, 0x75, 0x78])
    || HasStem(s, [0x6E, 0x75, 0x6C])
    || (|s| >= 4 && 0x31 <= s[3] <= 0x39
        && (HasStem(s, [0x63, 0x6F, 0x6D, s[3]]) || HasStem(s, [0x6C, 0x70, 0x74, s[3]])))
  }

  predicate SegmentOk(s: Bytes) {
    && s != [] && s != [DOT] && s != [DOT, DOT]
    && (forall i :: 0 <= i < |s| ==> !UnsafeByte(s[i]))
    && s[|s| - 1] != DOT && s[|s| - 1] != SPACE
    && !Reserved(s)
    && |s| <= MAX_SEGMENT_BYTES
  }

  predicate Tail(b: byte) { 0x80 <= b <= 0xBF }

  /** Well-formed UTF-8: shortest forms only, no surrogates, nothing above U+10FFFF. */
  predicate ValidUtf8(s: Bytes)
    decreases |s|
  {
    if s == [] then true
    else if s[0] < 0x80 then ValidUtf8(s[1..])
    else if 0xC2 <= s[0] <= 0xDF then |s| >= 2 && Tail(s[1]) && ValidUtf8(s[2..])
    else if 0xE0 <= s[0] <= 0xEF then
      && |s| >= 3 && Tail(s[1]) && Tail(s[2])
      && (s[0] == 0xE0 ==> s[1] >= 0xA0) && (s[0] == 0xED ==> s[1] <= 0x9F)
      && ValidUtf8(s[3..])
    else if 0xF0 <= s[0] <= 0xF4 then
      && |s| >= 4 && Tail(s[1]) && Tail(s[2]) && Tail(s[3])
      && (s[0] == 0xF0 ==> s[1] >= 0x90) && (s[0] == 0xF4 ==> s[1] <= 0x8F)
      && ValidUtf8(s[4..])
    else false
  }

  predicate Rooted(s: Bytes) {
    s != [] && (s[0] == SLASH || s[0] == BACKSLASH || (|s| >= 2 && IsLetter(s[0]) && s[1] == COLON))
  }

  predicate PathOk(s: Bytes) {
    var c := Canonical(s);
    && s != []
    && !Rooted(s)
    && |Split(c)| <= MAX_PATH_DEPTH
    && (forall i :: 0 <= i < |Split(c)| ==> SegmentOk(Split(c)[i]))
    && |c| <= MAX_PATH_BYTES
    && ValidUtf8(c)
  }

  /** Normalizes an untrusted manifest path by scanning its segments. */
  method NormalizeTransferPath(input: Bytes) returns (r: Option<Bytes>)
    ensures r == if PathOk(input) then Some(Canonical(input)) else None
  {
    if input == [] || Rooted(input) { return None; }
    var canonical := Canonical(input);
    var segments := Split(canonical);
    if |segments| > MAX_PATH_DEPTH { return None; }
    for k := 0 to |segments|
      invariant forall i :: 0 <= i < k ==> SegmentOk(segments[i])
    {
      var segment := segments[k];
      if segment == [] || segment == [DOT] || segment == [DOT, DOT] { return None; }
      for j := 0 to |segment|
        invariant forall i :: 0 <= i < j ==> !UnsafeByte(segment[i])
      {
        if UnsafeByte(segment[j]) { return None; }
      }
      var last := segment[|segment| - 1];
      if last == DOT || last == SPACE || Reserved(segment) || |segment| > MAX_SEGMENT_BYTES {
        return None;
      }
    }
    if |canonical| > MAX_PATH_BYTES || !ValidUtf8(canonical) { return None; }
    return Some(canonical);
  }

  lemma CanonicalIdempotent(s: Bytes)
    ensures Canonical(Canonical(s)) == Canonical(s)
  {}

  /** A normalized path is a fixed point of normalization. */
  lemma NormalizeIdempotent(s: Bytes)
    requires PathOk(s)
    ensures PathOk(Canonical(s)) && Canonical(Canonical(s)) == Canonical(s)
  {
    CanonicalIdempotent(s);
    var c := Canonical(s);
    assert c[0] == s[0];
    assert |c| >= 2 ==> (c[1] == COLON <==> s[1] == COLON);
  }

  /** Lexical resolution of a segment list below a directory, as a path join cleans it. */
  function Resolve(dir: seq<Bytes>, segments: seq<Bytes>): seq<Bytes>
    decreases |segments|
  {
    if segments == [] then dir
    else if segments[0] == [] || segments[0] == [DOT] then Resolve(dir, segments[1..])
    else if segments[0] == [DOT, DOT] then
      Resolve(if dir == [] then [] else dir[..|dir| - 1], segments[1..])
    else Resolve(dir + [segments[0]], segments[1..])
  }

  lemma {:induction false} ResolveSafe(dir: seq<Bytes>, segments: seq<Bytes>)
    requires forall i :: 0 <= i < |segments| ==> SegmentOk(segments[i])
    ensures Resolve(dir, segments) == dir + segments
    decreases |segments|
  {
    if segments == [] {
      assert dir + segments == dir;
    } else {
      assert SegmentOk(segments[0]);
      ResolveSafe(dir + [segments[0]], segments[1..]);
      assert dir + [segments[0]] + segments[1..] == dir + segments;
    }
  }

  /** Every accepted path resolves strictly below whatever directory it is joined to. */
  lemma AcceptedPathStaysBelowRoot(root: seq<Bytes>, s: Bytes)
    requires PathOk(s)
    ensures root < Resolve(root, Split(Canonical(s)))
  {
    ResolveSafe(root, Split(Canonical(s)));
  }

  // ----------------------------------------------------------------- manifests

  function SizeSum(files: seq<FileEntry>): int {
    if files == [] then 0 else SizeSum(files[..|files| - 1]) + files[|files| - 1].size
  }

  lemma {:induction false} SizeSumMonotone(files: seq<FileEntry>, k: nat)
    requires k <= |files|
    requires forall i :: 0 <= i < |files| ==> files[i].size >= 0
    ensures 0 <= SizeSum(files[..k]) <= SizeSum(files)
    decreases |files|
  {
    if k == |files| {
      assert files[..k] == files;
      if k > 0 { SizeSumMonotone(files[..k - 1], k - 1); assert files[..k - 1][..k - 1] == files[..k - 1]; }
    } else {
      SizeSumMonotone(files[..|files| - 1], k);
      assert files[..|files| - 1][..k] == files[..k];
    }
  }

  predicate EntryOk(f: FileEntry, idx: int) {
    && f.idx == idx
    && 0 <= f.size && 0 <= f.lastModified && 0 < f.blockSize && 0 <= f.blocks
    && f.blockSize <= MAX_MANIFEST_BLOCK_BYTES
    && f.blocks == Geometry.Blocks(f.size, f.blockSize)
    && PathOk(f.name)
  }

  predicate EntriesOk(files: seq<FileEntry>) {
    forall i :: 0 <= i < |files| ==> EntryOk(files[i], i)
  }

  predicate DistinctNames(files: seq<FileEntry>) {
    forall i, j :: 0 <= i < j < |files| ==>
      Fold(Canonical(files[i].name)) != Fold(Canonical(files[j].name))
  }

  predicate ManifestOk(m: Manifest) {
    && 0 < |m.files| <= MAX_FILES
    && EntriesOk(m.files)
    && DistinctNames(m.files)
    && SizeSum(m.files) <= MAX_INT64
    && m.totalSize == SizeSum(m.files)
  }

  function CanonicalFiles(files: seq<FileEntry>): seq<FileEntry> {
    seq(|files|, i requires 0 <= i < |files| => files[i].(name := Canonical(files[i].name)))
  }

  function Validate(m: Manifest): Option<Manifest> {
    if ManifestOk(m) then Some(m.(files := CanonicalFiles(m.files))) else None
  }

  lemma {:induction false} SizeSumCanonical(files: seq<FileEntry>)
    ensures SizeSum(CanonicalFiles(files)) == SizeSum(files)
    decreases |files|
  {
    if files != [] {
      var init := files[..|files| - 1];
      SizeSumCanonical(init);
      assert CanonicalFiles(files)[..|files| - 1] == CanonicalFiles(init);
    }
  }

  /** One entry's checks, in the code's order; the canonical name is kept on success. */
  method CheckEntry(file: FileEntry, idx: int) returns (name: Option<Bytes>)
    ensures name == if EntryOk(file, idx) then Some(Canonical(file.name)) else None
  {
    if file.idx != idx { return None; }
    if file.size < 0 || file.lastModified < 0 || file.blockSize <= 0 || file.blocks < 0 { return None; }
    if file.blockSize > MAX_MANIFEST_BLOCK_BYTES { return None; }
    var wantBlocks := if file.size > 0 then (file.size - 1) / file.blockSize + 1 else 0;
    if file.blocks != wantBlocks { return None; }
    name := NormalizeTransferPath(file.name);
  }

  lemma PrefixStep(files: seq<FileEntry>, k: nat)
    requires k < |files|
    ensures files[..k + 1][..k] == files[..k]
    ensures SizeSum(files[..k + 1]) == SizeSum(files[..k]) + files[k].size
    ensures CanonicalFiles(files[..k + 1]) == CanonicalFiles(files[..k]) + [files[k].(name := Canonical(files[k].name))]
  {
    assert files[..k + 1][..k] == files[..k];
  }

  function Key(f: FileEntry): Bytes { Fold(Canonical(f.name)) }

  datatype Scan = Rejected | Scanned(files: seq<FileEntry>, paths: set<Bytes>, total: int)

  /** The code's accumulators after the first `k` entries. */
  function ScanFiles(files: seq<FileEntry>, k: nat): (r: Scan)
    requires k <= |files|
  {
    if k == 0 then Scanned([], {}, 0)
    else
      var before := ScanFiles(files, k - 1);
      var f := files[k - 1];
      if before == Rejected || !EntryOk(f, k - 1) || Key(f) in before.paths || f.size > MAX_INT64 - before.total
      then Rejected
      else Scanned(before.files + [f.(name := Canonical(f.name))], before.paths + {Key(f)}, before.total + f.size)
  }

  lemma {:induction false} RejectedStays(files: seq<FileEntry>, k: nat)
    requires k <= |files| && ScanFiles(files, k) == Rejected
    ensures ScanFiles(files, |files|) == Rejected
    decreases |files| - k
  {
    if k < |files| {
      RejectedStays(files, k + 1);
    }
  }

  predicate KeysSeen(files: seq<FileEntry>, k: nat, paths: set<Bytes>)
    requires k <= |files|
  {
    && (forall i :: 0 <= i < k ==> Key(files[i]) in paths)
    && (forall p :: p in paths ==> exists i :: 0 <= i < k && Key(files[i]) == p)
  }

  predicate DistinctKeys(files: seq<FileEntry>, k: nat)
    requires k <= |files|
  {
    forall i, j :: 0 <= i < j < k ==> Key(files[i]) != Key(files[j])
  }

  /** What the scan has established when it has not rejected. */
  lemma {:induction false} ScanSound(files: seq<FileEntry>, k: nat)
    requires k <= |files| && ScanFiles(files, k) != Rejected
    ensures forall i :: 0 <= i < k ==> EntryOk(files[i], i)
    ensures DistinctKeys(files, k)
    ensures KeysSeen(files, k, ScanFiles(files, k).paths)
    ensures ScanFiles(files, k).files == CanonicalFiles(files[..k])
    ensures ScanFiles(files, k).total == SizeSum(files[..k]) <= MAX_INT64
  {
    if k > 0 {
      ScanSound(files, k - 1);
      PrefixStep(files, k - 1);
    }
  }

  /** The scan rejects nothing that satisfies the rules. */
  lemma {:induction false} ScanComplete(files: seq<FileEntry>, k: nat)
    requires k <= |files| && EntriesOk(files) && DistinctKeys(files, |files|) && SizeSum(files) <= MAX_INT64
    ensures ScanFiles(files, k) != Rejected
  {
    hide PathOk;
    if k > 0 {
      ScanComplete(files, k - 1);
      ScanSound(files, k - 1);
      PrefixStep(files, k - 1);
      SizeSumMonotone(files, k);
    }
  }

  lemma ScanDecides(m: Manifest)
    requires 0 < |m.files| <= MAX_FILES
    ensures Validate(m) ==
            var s := ScanFiles(m.files, |m.files|);
            if s == Rejected || m.totalSize != s.total then None else Some(m.(files := s.files))
  {
    assert m.files[..|m.files|] == m.files;
    if ScanFiles(m.files, |m.files|) != Rejected {
      ScanSound(m.files, |m.files|);
    } else if ManifestOk(m) {
      assert DistinctKeys(m.files, |m.files|);
      ScanComplete(m.files, |m.files|);
    }
  }

  /** The scan of the code, with its running total and set of folded names. The total is
      compared with the remaining headroom before it is advanced, so it never overflows. */
  method ValidateManifest(m: Manifest) returns (r: Option<Manifest>)
    ensures r == Validate(m)
  {
    hide PathOk;
    if |m.files| == 0 || |m.files| > MAX_FILES { return None; }
    ScanDecides(m);
    var files: seq<FileEntry> := [];
    var paths: set<Bytes> := {};
    var total := 0;
    for idx := 0 to |m.files|
      invariant ScanFiles(m.files, idx) == Scanned(files, paths, total)
    {
      var file := m.files[idx];
      var name := CheckEntry(file, idx);
      if name == None || Fold(name.value) in paths || file.size > MAX_INT64 - total {
        RejectedStays(m.files, idx + 1);
        return None;
      }
      paths := paths + {Fold(name.value)};
      total := total + file.size;
      files := files + [file.(name := name.value)];
    }
    if m.totalSize != total { return None; }
    return Some(m.(files := files));
  }

  /** Validation is idempotent: an accepted manifest is accepted again, unchanged. */
  lemma ValidateIdempotent(m: Manifest)
    requires ManifestOk(m)
    ensures Validate(Validate(m).value) == Validate(m)
  {
    var v := Validate(m).value;
    SizeSumCanonical(m.files);
    forall i | 0 <= i < |m.files|
      ensures EntryOk(v.files[i], i) && Canonical(v.files[i].name) == v.files[i].name
    {
      NormalizeIdempotent(m.files[i].name);
    }
    assert CanonicalFiles(v.files) == v.files;
  }

  /** Accepted geometry is exact: the block lengths of all files add up to the total size. */
  function BlockLengthTotal(files: seq<FileEntry>): int
    requires EntriesOk(files)
  {
    if files == [] then 0
    else
      var last := files[|files| - 1];
      BlockLengthTotal(files[..|files| - 1]) + Geometry.LengthSum(last.size, last.blockSize, last.blocks)
  }

  lemma {:induction false} BlockLengthsCoverFiles(files: seq<FileEntry>)
    requires EntriesOk(files)
    ensures BlockLengthTotal(files) == SizeSum(files)
    decreases |files|
  {
    if files != [] {
      BlockLengthsCoverFiles(files[..|files| - 1]);
      var last := files[|files| - 1];
      Geometry.LengthSumIsPos(last.size, last.blockSize, last.blocks);
      Geometry.BlockCountBound(last.size, last.blockSize);
    }
  }

  lemma AcceptedManifestIsExact(m: Manifest)
    requires ManifestOk(m)
    ensures EntriesOk(Validate(m).value.files)
    ensures BlockLengthTotal(Validate(m).value.files) == m.totalSize <= MAX_INT64
    ensures forall i, j :: 0 <= i < j < |m.files| ==>
      Fold(Validate(m).value.files[i].name) != Fold(Validate(m).value.files[j].name)
  {
    ValidateIdempotent(m);
    var v := Validate(m).value;
    BlockLengthsCoverFiles(v.files);
    SizeSumCanonical(m.files);
  }
}
