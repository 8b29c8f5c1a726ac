/** Cutting a discard short between its two removals: exactly when a delivered file is safe
    from it, and a run from an empty store in which one is lost. */
module DurableDiscard {
  import opened Wire
  import opened Geometry
  import opened Journals
  import opened Storage
  import opened Durable
  import opened DurableSafety
  import opened DurableResults
  import opened DurablePromotion
  import SafePath

  // ---------------------------------------------------------------- a manifest to receive again

  /** A manifest a store can take on for the first time. */
  predicate Receivable(m: Manifest, root: nat) {
    && SafePath.Validate(m) == Some(m) && m.transferId != [] && m.files != []
    && NoClash(m.files) && New(m, root, 1).Some?
  }

  function DecoyEntry(e: FileEntry, full: bool): FileEntry {
    e.(size := if full then 1 else 0, blocks := if full then 1 else 0, digest := Sha(if full then [0] else []))
  }

  /** The same names under the same transfer id, all empty but for one byte in file `f`. */
  function Decoy(m: Manifest, f: nat): Manifest {
    Manifest(m.transferId, seq(|m.files|, i requires 0 <= i < |m.files| => DecoyEntry(m.files[i], i == f)), 1)
  }

  lemma {:induction false} DecoySum(m: Manifest, f: nat, k: nat)
    requires k <= |m.files|
    ensures SafePath.SizeSum(Decoy(m, f).files[..k]) == if f < k then 1 else 0
  {
    if k > 0 {
      var files := Decoy(m, f).files[..k];
      assert files[..k - 1] == Decoy(m, f).files[..k - 1];
      DecoySum(m, f, k - 1);
    }
  }

  /** What validation returned once validates again under other sizes. */
  lemma DecoyValidates(raw: Manifest, f: nat)
    requires SafePath.ManifestOk(raw) && f < |raw.files|
    ensures var m := SafePath.Validate(raw).value;
            SafePath.Validate(Decoy(m, f)) == Some(Decoy(m, f)) && |m.files| == |raw.files|
  {
    hide SafePath.PathOk, SafePath.Fold, SafePath.Canonical;
    var m := SafePath.Validate(raw).value;
    var z := Decoy(m, f);
    SafePath.ValidateIdempotent(raw);
    assert SafePath.ManifestOk(m) && SafePath.CanonicalFiles(m.files) == m.files;
    DecoySum(m, f, |m.files|);
    assert z.files[..|m.files|] == z.files;
    forall i | 0 <= i < |z.files|
      ensures SafePath.EntryOk(z.files[i], i) && SafePath.CanonicalFiles(z.files)[i] == z.files[i]
    {
      assert SafePath.EntryOk(m.files[i], i);
      assert SafePath.CanonicalFiles(m.files)[i] == m.files[i];
      OneByteBlocks(m.files[i].blockSize);
    }
    assert SafePath.CanonicalFiles(z.files) == z.files;
    forall i, k | 0 <= i < k < |z.files|
      ensures SafePath.Fold(SafePath.Canonical(z.files[i].name)) != SafePath.Fold(SafePath.Canonical(z.files[k].name))
    {
      assert z.files[i].name == m.files[i].name && z.files[k].name == m.files[k].name;
    }
  }

  lemma OneByteBlocks(bs: int)
    requires 0 < bs
    ensures Blocks(1, bs) == 1 && Blocks(0, bs) == 0
  {}

  lemma {:induction false} NewTotal(files: seq<FileEntry>)
    ensures TotalSize(Untouched(files)) == SafePath.SizeSum(files) && Entries(Untouched(files)) == files
    decreases |files|
  {
    assert Entries(Untouched(files)) == files;
    if files != [] {
      NewTotal(files[..|files| - 1]);
      assert Untouched(files)[..|files| - 1] == Untouched(files[..|files| - 1]);
    }
  }

  /** A validated manifest with one block size and a proper id can be journaled. */
  lemma Journaled(m: Manifest, root: nat)
    requires SafePath.Validate(m) == Some(m) && LowerHex(m.transferId, 32)
    requires forall i :: 0 <= i < |m.files| ==> m.files[i].blockSize == m.files[0].blockSize
    ensures New(m, root, 1).Some?
  {
    hide SafePath.PathOk, Blocks, SafePath.DistinctNames, LowerHex;
    var fs := Untouched(m.files);
    NewTotal(m.files);
    assert SafePath.ManifestOk(m);
    assert Manifest(m.transferId, Entries(fs), TotalSize(fs)) == m;
    forall i | 0 <= i < |fs| ensures FileStateOk(fs[i], i, fs[0].entry.blockSize) {
      assert SafePath.EntryOk(m.files[i], i);
    }
    hide SafePath.Validate;
  }

  lemma DecoyReceivable(j: Journal, f: nat, root: nat)
    requires Valid(j) && NoClash(j.fingerprint.manifest.files) && f < |j.files|
    ensures |j.fingerprint.manifest.files| == |j.files| && j.fingerprint.manifest.transferId == j.transferId
    ensures Receivable(Decoy(j.fingerprint.manifest, f), root)
  {
    hide SafePath.ManifestOk, Blocks, SafePath.Canonical, New, LowerHex;
    var raw := Manifest(j.transferId, Entries(j.files), TotalSize(j.files));
    assert SafePath.ManifestOk(raw);
    DecoyValidates(raw, f);
    var m, z := j.fingerprint.manifest, Decoy(j.fingerprint.manifest, f);
    assert j.transferId != [] by { ProperId(j.transferId); }
    forall i | 0 <= i < |z.files| ensures z.files[i].blockSize == j.files[0].entry.blockSize {
      assert FileStateOk(j.files[i], i, j.files[0].entry.blockSize);
      assert m.files[i] == raw.files[i].(name := SafePath.Canonical(raw.files[i].name));
    }
    Journaled(z, root);
  }

  lemma ProperId(id: Id)
    requires LowerHex(id, 32)
    ensures id != []
  {}

  // ---------------------------------------------------------------- building runs

  /** Appends one event that is not a cut-short discard. */
  lemma Next(root: nat, start: Disk, es: seq<Event>, e: Event) returns (longer: seq<Event>)
    requires HarmlessRun(root, start, es) && !e.DiscardInterrupted?
    ensures longer == es + [e] && Exec(root, start, longer) == Apply(root, Exec(root, start, es), e)
    ensures HarmlessRun(root, start, longer)
  {
    longer := es + [e];
    assert longer[..|es|] == es;
  }

  lemma NoEvents(root: nat, start: Disk)
    ensures Exec(root, start, []) == Host(start, None) && HarmlessRun(root, start, [])
  {}

  /** The journal of a receive that has negotiated and received nothing. */
  function Started(m: Manifest, root: nat): Journal
    requires New(m, root, 1).Some?
  {
    New(m, root, 1).value.(secret := Some(0))
  }

  lemma StartedFacts(m: Manifest, root: nat)
    requires Receivable(m, root)
    ensures New(m, root, 1).Some?
    ensures var j := Started(m, root);
            && Valid(j) && j.transferId == m.transferId && j.fingerprint == Fingerprint(m) && j.destination == root
            && |j.files| == |m.files| && (forall i :: 0 <= i < |j.files| ==> j.files[i] == FileState(m.files[i], 0, None))
            && !HasProgress(j)
  {
    hide SafePath.Validate;
  }

  lemma {:induction false} FreshSeeds(d: Disk, j: Journal, n: nat)
    requires n <= |j.files| && (forall f :: 0 <= f < |j.files| ==> j.files[f].committed == 0)
    ensures SeedsFor(d, j, n).Some? && |SeedsFor(d, j, n).value| == n
    ensures forall f :: 0 <= f < n ==> SeedsFor(d, j, n).value[f] == Seed(0, [])
  {
    if n > 0 { FreshSeeds(d, j, n - 1); }
  }

  /** A session that has negotiated, holds this journal and has opened nothing. */
  predicate Negotiated(s: Session, m: Manifest, root: nat, resumed: bool)
    requires New(m, root, 1).Some?
  {
    && !Idle(s) && s.flags.prepared && s.journal == Some(Started(m, root)) && s.resumed == resumed && s.sinks == map[]
    && s.seeds.Some? && |s.seeds.value| == |m.files| && (forall f :: 0 <= f < |m.files| ==> s.seeds.value[f] == Seed(0, []))
  }

  lemma CreatePerform(d: Disk, m: Manifest, root: nat)
    requires Receivable(m, root) && m.transferId !in d.journals
    ensures var r := Perform(root, d, NewSession([], false), OpPrepare(m, 1, NoFault));
            && r.call.disk == d.(journals := d.journals[m.transferId := Whole(New(m, root, 1).value)], temp := None)
            && r.session == NewSession([], false).(flags := Flags(true, false, false), journal := New(m, root, 1))
  {
    hide SafePath.Validate, Valid;
    assert Valid(New(m, root, 1).value);
  }

  lemma AttachPerform(d: Disk, s: Session, m: Manifest, root: nat)
    requires Receivable(m, root) && !Idle(s) && s.flags.prepared && s.journal == New(m, root, 1)
    requires !s.resumed && s.sinks == map[]
    ensures var r := Perform(root, d, s, OpNegotiate(m, 0, NoFault));
            && r.call.disk == d.(journals := d.journals[m.transferId := Whole(Started(m, root))], temp := None)
            && Negotiated(r.session, m, root, false) && r.session.gate == s.gate
  {
    hide SafePath.Validate, Valid, SeedsFor;
    var j := s.journal.value;
    FreshSeeds(d, j, |j.files|);
    StartedFacts(m, root);
  }

  lemma AdoptPerform(d: Disk, m: Manifest, root: nat)
    requires Receivable(m, root) && m.transferId in d.journals && d.journals[m.transferId] == Whole(Started(m, root))
    ensures var r := Perform(root, d, NewSession(m.transferId, true), OpPrepare(m, 1, NoFault));
            && r.call.disk == d
            && r.session == NewSession(m.transferId, true).(
                 flags := Flags(true, false, false), journal := Some(Started(m, root)), resumed := true)
  {
    hide SafePath.Validate, Valid, New;
    StartedFacts(m, root);
  }

  lemma ResumePerform(d: Disk, s: Session, m: Manifest, root: nat)
    requires Receivable(m, root) && !Idle(s) && s.flags.prepared && s.resumed && s.sinks == map[]
    requires New(m, root, 1).Some? && s.journal == Some(Started(m, root))
    ensures var r := Perform(root, d, s, OpNegotiate(m, 0, NoFault));
            r.call.disk == d && Negotiated(r.session, m, root, true)
  {
    hide SafePath.Validate, Valid, SeedsFor, New, SaveJournal;
    StartedFacts(m, root);
    var j := s.journal.value;
    FreshSeeds(d, j, |j.files|);
  }

  /** A first session that gets as far as negotiating, is interrupted, and is resumed. */
  lemma SecondSession(root: nat, d: Disk, m: Manifest) returns (es: seq<Event>)
    requires Receivable(m, root) && m.transferId !in d.journals
    ensures New(m, root, 1).Some? && HarmlessRun(root, d, es)
    ensures var h := Exec(root, d, es);
            && h.disk == d.(journals := d.journals[m.transferId := Whole(Started(m, root))], temp := None)
            && h.session.Some? && Negotiated(h.session.value, m, root, true)
  {
    hide Exec, HarmlessRun, Perform, Negotiated, Receivable, New;
    StartedFacts(m, root);
    var id := m.transferId;
    var d0 := d.(journals := d.journals[id := Whole(New(m, root, 1).value)], temp := None);
    var d1 := d.(journals := d.journals[id := Whole(Started(m, root))], temp := None);
    NoEvents(root, d);
    es := [];
    es := Next(root, d, es, Begin([], false));
    CreatePerform(d, m, root);
    es := Next(root, d, es, Do(OpPrepare(m, 1, NoFault)));
    AttachPerform(d0, Exec(root, d, es).session.value, m, root);
    es := Next(root, d, es, Do(OpNegotiate(m, 0, NoFault)));
    assert d0.(journals := d0.journals[id := Whole(Started(m, root))], temp := None) == d1;
    es := Next(root, d, es, Abort);
    assert Exec(root, d, es) == Host(d1, None);
    es := Next(root, d, es, Begin(id, true));
    AdoptPerform(d1, m, root);
    es := Next(root, d, es, Do(OpPrepare(m, 1, NoFault)));
    ResumePerform(d1, Exec(root, d, es).session.value, m, root);
    es := Next(root, d, es, Do(OpNegotiate(m, 0, NoFault)));
  }

  // ---------------------------------------------------------------- the resumed session, file by file

  /** The session is about to open file `i`; the partial of file `f` is still `file`. */
  predicate AtFile(h: Host, m: Manifest, root: nat, i: nat, f: nat, inode: nat, file: File) {
    && New(m, root, 1).Some? && h.session.Some?
    && (var s := h.session.value;
        && !Idle(s) && s.flags.prepared && s.journal == Some(Started(m, root)) && s.resumed
        && s.seeds.Some? && |s.seeds.value| == |m.files| && (forall g :: 0 <= g < |m.files| ==> s.seeds.value[g] == Seed(0, []))
        && (forall g :: g in s.sinks ==> g < i))
    && Key(m.transferId, f) in h.disk.parts && h.disk.parts[Key(m.transferId, f)] == inode
    && inode in h.disk.files && h.disk.files[inode] == file
  }

  lemma NothingClaimed(m: Manifest, root: nat, i: nat)
    requires Receivable(m, root) && i < |m.files|
    ensures New(m, root, 1).Some? && i < |Started(m, root).files|
    ensures CommittedBytes(Started(m, root).files[i]) == 0
  {
    hide SafePath.Validate, New, Blocks, Receivable;
    StartedFacts(m, root);
    var j := Started(m, root);
    assert FileStateOk(j.files[i], i, j.files[0].entry.blockSize);
    ClaimPos(j, i);
  }

  /** The two ways a resumed session opens a file with nothing committed. */
  lemma OpenWays(root: nat, h: Host, m: Manifest, i: nat, f: nat, inode: nat, file: File)
    requires Receivable(m, root) && i < |m.files| && AtFile(h, m, root, i, f, inode, file) && NamesOk(h.disk)
    ensures var t, key := Apply(root, h, Do(OpOpen(i))), Key(m.transferId, i);
            && (key in h.disk.parts ==>
                  && h.disk.parts[key] in h.disk.files && FileOk(h.disk.files[h.disk.parts[key]])
                  && t.disk == SetFile(h.disk, h.disk.parts[key], Truncate(h.disk.files[h.disk.parts[key]], 0))
                  && t.session == Some(h.session.value.(
                                         sinks := h.session.value.sinks[i := Sink(h.disk.parts[key], 0, [], false)])))
            && (key !in h.disk.parts ==>
                  && t.disk == NewInode(h.disk, key)
                  && t.session == Some(h.session.value.(sinks := h.session.value.sinks[i := Sink(h.disk.next, 0, [], false)])))
  {
    hide SafePath.Validate, New, Receivable, CommittedBytes, Valid, Truncate;
    NothingClaimed(m, root, i);
    StartedFacts(m, root);
  }

  /** Opening file `i` leaves it empty, whether its partial was there or not. */
  lemma OpenEmpties(root: nat, h: Host, m: Manifest, i: nat, f: nat, inode: nat, file: File)
    requires Receivable(m, root) && i < |m.files| && AtFile(h, m, root, i, f, inode, file) && NamesOk(h.disk)
    ensures var t := Apply(root, h, Do(OpOpen(i)));
            && t.session.Some? && !Idle(t.session.value) && i in t.session.value.sinks
            && var k := t.session.value.sinks[i];
               && k == Sink(k.inode, 0, [], false)
               && k.inode in t.disk.files && t.disk.files[k.inode].data == [] && FileOk(t.disk.files[k.inode])
               && (i == f ==> k.inode == inode)
               && t.session.value == h.session.value.(sinks := h.session.value.sinks[i := k])
               && (i != f ==> AtFile(t, m, root, i + 1, f, inode, file) && k.inode != inode)
  {
    hide Receivable, New, Apply;
    OpenWays(root, h, m, i, f, inode, file);
  }

  /** An empty file is finished at once. */
  lemma FinishEmpty(root: nat, h: Host, m: Manifest, i: nat, f: nat, inode: nat, file: File)
    requires Receivable(m, root) && i < |m.files| && i != f && AtFile(h, m, root, i + 1, f, inode, file)
    requires m.files[i].blocks == 0 && m.files[i].digest == Sha([]) && i in h.session.value.sinks
    requires var k := h.session.value.sinks[i]; k == Sink(k.inode, 0, [], false) && k.inode in h.disk.files && k.inode != inode
    ensures AtFile(Apply(root, h, Do(OpFinish(i, true))), m, root, i + 1, f, inode, file)
  {
    hide SafePath.Validate, New, Receivable, Valid;
    StartedFacts(m, root);
  }

  lemma {:induction false} PassEmptyFiles(root: nat, d: Disk, es: seq<Event>, m: Manifest, i: nat,
      f: nat, inode: nat, file: File)
    returns (all: seq<Event>)
    requires Receivable(m, root) && DiskOk({}, d) && HarmlessRun(root, d, es) && i <= f < |m.files|
    requires AtFile(Exec(root, d, es), m, root, i, f, inode, file)
    requires forall g :: 0 <= g < f ==> m.files[g].blocks == 0 && m.files[g].digest == Sha([])
    ensures HarmlessRun(root, d, all) && AtFile(Exec(root, d, all), m, root, f, f, inode, file)
    decreases f - i
  {
    hide Exec, HarmlessRun, Apply, Receivable, DiskOk, NamesOk, HostOk;
    if i == f {
      all := es;
    } else {
      NoTrustNeeded(root, d, es);
      ReachableOk({}, root, d, es);
      assert NamesOk(Exec(root, d, es).disk) by { HostNames(Exec(root, d, es)); }
      OpenEmpties(root, Exec(root, d, es), m, i, f, inode, file);
      var a := Next(root, d, es, Do(OpOpen(i)));
      FinishEmpty(root, Exec(root, d, a), m, i, f, inode, file);
      var b := Next(root, d, a, Do(OpFinish(i, true)));
      all := PassEmptyFiles(root, d, b, m, i + 1, f, inode, file);
    }
  }

  lemma HostNames(h: Host)
    requires HostOk({}, h)
    ensures NamesOk(h.disk) && DiskOk({}, h.disk)
  {
    hide SessionOk, JournalOk;
  }

  /** The one byte of the last file lands in whatever file its partial names. */
  lemma WriteLands(root: nat, h: Host, m: Manifest, f: nat, inode: nat)
    requires Receivable(m, root) && f < |m.files| && h.session.Some? && !Idle(h.session.value)
    requires New(m, root, 1).Some? && h.session.value.journal == Some(Started(m, root))
    requires m.files[f].size == 1 && m.files[f].blocks == 1 && 0 < m.files[f].blockSize <= MAX_MANIFEST_BLOCK_BYTES
    requires f in h.session.value.sinks && h.session.value.sinks[f] == Sink(inode, 0, [], false)
    requires inode in h.disk.files && h.disk.files[inode].data == [] && FileOk(h.disk.files[inode])
    ensures var t := Apply(root, h, Do(OpWrite(f, [0], false, 1, NoWriteFault)));
            inode in t.disk.files && t.disk.files[inode].data == [0]
  {
    hide SafePath.Validate, New, Receivable, Valid, Record;
    StartedFacts(m, root);
    assert BlockLength(m.files[f], 0) == 1;
  }

  // ---------------------------------------------------------------- exactly when a cut is harmless

  /** If a partial shares its file with a final name, some harmless-looking continuation of the
      cut discard changes that final file. */
  lemma SharedIsHarmed(root: nat, d: Disk, id: Id) returns (es: seq<Event>)
    requires DiskOk({}, d) && Delivered(d) && Shares(d, id)
    ensures var bare := DiscardCall(d, id).trace[0];
            HarmlessRun(root, bare, es) && !FinalsKept(d, Exec(root, bare, es).disk)
  {
    hide Exec, HarmlessRun, Apply, Receivable, NamesOk, HostOk, Valid, Backed, New, AtFile, Negotiated;
    var key, name :| key in d.parts && key.id == id && name in d.finals && d.parts[key] == d.finals[name];
    var bare, inode, f := DiscardCall(d, id).trace[0], d.finals[name], key.f;
    assert key == Key(id, f) && SharedIsComplete(d, key);
    assert JournalOk({}, d, id, d.journals[id]);
    assert inode in d.files by { DiskNames({}, d); PartExists(d, key); }
    var file := d.files[inode];
    var j := d.journals[id].j;
    DecoyReceivable(j, f, root);
    var m := Decoy(j.fingerprint.manifest, f);
    assert DiskOk({}, bare) by { DiscardOk({}, d, id); DiscardSeen(d, id); }
    es := SecondSession(root, bare, m);
    assert AtFile(Exec(root, bare, es), m, root, 0, f, inode, file) by {
      StartsAtZero(Exec(root, bare, es), m, root, f, inode, file);
    }
    es := PassEmptyFiles(root, bare, es, m, 0, f, inode, file);
    NoTrustNeeded(root, bare, es);
    ReachableOk({}, root, bare, es);
    HostNames(Exec(root, bare, es));
    OpenEmpties(root, Exec(root, bare, es), m, f, f, inode, file);
    assert FullEntry(m.files[f]) by { DecoyFull(j, f); }
    AtFileJournal(Exec(root, bare, es), m, root, f, f, inode, file);
    es := Next(root, bare, es, Do(OpOpen(f)));
    var h := Exec(root, bare, es);
    if file.data != [] {
      Changed(d, h.disk, name);
    } else {
      WriteLands(root, h, m, f, inode);
      es := Next(root, bare, es, Do(OpWrite(f, [0], false, 1, NoWriteFault)));
      Changed(d, Exec(root, bare, es).disk, name);
    }
  }

  predicate FullEntry(e: FileEntry) { e.size == 1 && e.blocks == 1 && 0 < e.blockSize <= MAX_MANIFEST_BLOCK_BYTES }

  lemma DecoyFull(j: Journal, f: nat)
    requires Valid(j) && f < |j.files| && |j.fingerprint.manifest.files| == |j.files|
    ensures FullEntry(Decoy(j.fingerprint.manifest, f).files[f])
  {
    hide SafePath.ManifestOk, SafePath.Canonical, LowerHex;
    assert FileStateOk(j.files[f], f, j.files[0].entry.blockSize);
  }

  lemma AtFileJournal(h: Host, m: Manifest, root: nat, i: nat, f: nat, inode: nat, file: File)
    requires AtFile(h, m, root, i, f, inode, file)
    ensures h.session.Some? && New(m, root, 1).Some? && h.session.value.journal == Some(Started(m, root))
  {}

  lemma PartExists(d: Disk, k: Key)
    requires NamesOk(d) && k in d.parts
    ensures d.parts[k] in d.files && FileOk(d.files[d.parts[k]])
  {}

  lemma StartsAtZero(h: Host, m: Manifest, root: nat, f: nat, inode: nat, file: File)
    requires New(m, root, 1).Some? && h.session.Some? && Negotiated(h.session.value, m, root, true)
    requires Key(m.transferId, f) in h.disk.parts && h.disk.parts[Key(m.transferId, f)] == inode
    requires inode in h.disk.files && h.disk.files[inode] == file
    ensures AtFile(h, m, root, 0, f, inode, file)
  {}

  lemma Changed(d: Disk, e: Disk, name: seq<byte>)
    requires name in d.finals && d.finals[name] in d.files && d.finals[name] in e.files
    requires e.files[d.finals[name]].data != d.files[d.finals[name]].data
    ensures !FinalsKept(d, e)
  {}

  /** Cutting the discard of a transfer short keeps every delivered file safe, under every
      continuation that cuts no other discard short at a bad moment, exactly when none of the
      transfer's partials shares its file with a final name. */
  lemma CutDiscardExactly(root: nat, d: Disk, id: Id)
    requires DiskOk({}, d) && Delivered(d)
    ensures var bare := DiscardCall(d, id).trace[0];
            !Shares(d, id) <==> forall es :: HarmlessRun(root, bare, es) ==> FinalsKept(d, Exec(root, bare, es).disk)
  {
    hide Exec, HarmlessRun, DiskOk, Delivered, FinalsKept, Shares;
    var bare := DiscardCall(d, id).trace[0];
    CutDiscardDelivered(d, id);
    if Shares(d, id) {
      var es := SharedIsHarmed(root, d, id);
    } else {
      assert DiskOk({}, bare) by { DiscardOk({}, d, id); DiscardSeen(d, id); }
      forall es | HarmlessRun(root, bare, es) ensures FinalsKept(d, Exec(root, bare, es).disk) {
        assert [] + es == es;
        FinalsNeverChange(root, bare, [], es);
        NoEvents(root, bare);
        KeptTwice(d, bare, Exec(root, bare, es).disk);
      }
    }
  }

  // ---------------------------------------------------------------- a run from an empty store

  const EmptyStore: Disk := Disk(map[], map[], map[], map[], None, 0)

  /** A receivable manifest of one file with one block, computed over these bytes. */
  predicate OneBlock(m: Manifest, root: nat) {
    && Receivable(m, root) && |m.files| == 1 && m.files[0].blocks == 1
    && |m.files[0].digest.pre| == m.files[0].size
  }

  /** The journal and the disk once the block is in, and the disk a crash finds between the link
      and the unlink of its promotion. */
  function Received(m: Manifest, root: nat): Journal
    requires New(m, root, 1).Some?
  {
    Started(m, root).(files := [FileState(m.files[0], 1, None)])
  }

  function Holding(m: Manifest, root: nat): Disk
    requires New(m, root, 1).Some? && |m.files| == 1
  {
    var data := m.files[0].digest.pre;
    Disk(map[0 := File(data, |data|, true, true)], map[Key(m.transferId, 0) := 0], map[],
         map[m.transferId := Whole(Received(m, root))], None, 1)
  }

  function HalfPromoted(m: Manifest, root: nat): Disk
    requires New(m, root, 1).Some? && |m.files| == 1
  {
    Holding(m, root).(finals := map[m.files[0].name := 0])
  }

  lemma OpenFirst(d: Disk, s: Session, m: Manifest, root: nat)
    requires OneBlock(m, root) && Negotiated(s, m, root, false) && d.parts == map[] && d.next == 0
    ensures var r := Perform(root, d, s, OpOpen(0));
            && r.call.disk == d.(files := d.files[0 := EmptyFile], parts := map[Key(m.transferId, 0) := 0], next := 1)
            && r.session == s.(sinks := map[0 := Sink(0, 0, [], false)])
  {
    hide SafePath.Validate, New, Receivable, CommittedBytes, Valid;
    StartedFacts(m, root);
  }

  lemma BlockRecord(m: Manifest, root: nat)
    requires OneBlock(m, root)
    ensures New(m, root, 1).Some?
    ensures Record(Started(m, root), 0, 1, None, 1) == Some(Received(m, root))
    ensures Valid(Received(m, root))
    ensures BlockLength(m.files[0], 0) == |m.files[0].digest.pre| && m.files[0].blockSize > 0
  {
    hide SafePath.Validate, New, Receivable, Blocks;
    StartedFacts(m, root);
    var j := Started(m, root);
    RecordKeepsValid(j, 0, 1, None, 1);
    assert j.files == [FileState(m.files[0], 0, None)];
    StartedTime(m, root);
    RecordFile(j, 0, 1, None, 1);
    assert j.files[0 := FileState(m.files[0], 1, None)] == [FileState(m.files[0], 1, None)];
    assert FileStateOk(j.files[0], 0, j.files[0].entry.blockSize);
    BlockLengthIsPos(m.files[0], 0);
    BlockCountBound(m.files[0].size, m.files[0].blockSize);
  }

  lemma StartedTime(m: Manifest, root: nat)
    requires New(m, root, 1).Some?
    ensures Started(m, root).updated == 1 && Started(m, root).created == 1
  {
    hide Valid;
  }

  lemma WriteOnly(d: Disk, s: Session, m: Manifest, root: nat)
    requires OneBlock(m, root) && !Idle(s) && New(m, root, 1).Some? && s.journal == Some(Started(m, root))
    requires s.sinks == map[0 := Sink(0, 0, [], false)] && 0 in d.files && d.files[0] == EmptyFile
    ensures var data := m.files[0].digest.pre;
            var r := Perform(root, d, s, OpWrite(0, data, false, 1, NoWriteFault));
            && r.call.disk == d.(files := d.files[0 := File(data, |data|, true, true)],
                                 journals := d.journals[m.transferId := Whole(Received(m, root))], temp := None)
            && r.session == s.(journal := Some(Received(m, root)), sinks := map[0 := Sink(0, 1, data, false)])
  {
    hide SafePath.Validate, New, Receivable, Valid, Record, BlockLength, WriteAt;
    StartedFacts(m, root);
    BlockRecord(m, root);
    var data := m.files[0].digest.pre;
    AppendAtEnd(EmptyFile, data);
    assert WriteAt(EmptyFile, 0, data).data == data;
    SetFileAgain(d, WriteAt(EmptyFile, 0, data), Sync(WriteAt(EmptyFile, 0, data)));
  }

  lemma SetFileAgain(d: Disk, a: File, b: File)
    ensures SetFile(SetFile(d, 0, a), 0, b) == SetFile(d, 0, b)
  {}

  lemma FinishOnly(d: Disk, s: Session, m: Manifest, root: nat)
    requires OneBlock(m, root) && !Idle(s) && New(m, root, 1).Some?
    requires s.journal == Some(Received(m, root)) && 0 in d.files
    requires s.sinks == map[0 := Sink(0, 1, m.files[0].digest.pre, false)]
    requires var data := m.files[0].digest.pre; d.files[0] == File(data, |data|, true, true)
    ensures var r := Perform(root, d, s, OpFinish(0, true));
            r.call.disk == d && r.session == s.(sinks := map[0 := Sink(0, 1, m.files[0].digest.pre, true)])
  {
    hide SafePath.Validate, New, Receivable, Valid;
    assert d.files[0 := d.files[0]] == d.files;
  }

  /** The second disk a crash may find during Close has the file under both names. */
  lemma CloseLinks(s: Session, m: Manifest, root: nat)
    requires OneBlock(m, root) && !Idle(s) && New(m, root, 1).Some? && s.journal == Some(Received(m, root))
    requires s.sinks == map[0 := Sink(0, 1, m.files[0].digest.pre, true)]
    ensures var seen := Seen(Perform(root, Holding(m, root), s, OpClose([])).call);
            |seen| > 1 && seen[1] == HalfPromoted(m, root) && Survives(seen[1], seen[1])
  {
    hide SafePath.Validate, New, Receivable, Valid;
    var d, j := Holding(m, root), Received(m, root);
    assert j.transferId == m.transferId by { StartedFacts(m, root); }
    var p := Promote(d, Key(j.transferId, 0), j.files[0].entry.name, ByLink);
    assert PromoteAll(d, j, 0, []) == Nothing(d);
    assert PromoteAll(d, j, 1, []) == Then(Nothing(d), p);
    assert p.ok && p.trace == [HalfPromoted(m, root)];
    assert Seen(PromoteAll(d, j, 1, []))[1] == HalfPromoted(m, root);
    SeenThen(PromoteAll(d, j, 1, []), DiscardCall(p.disk, j.transferId));
  }

  /** A plain receive that crashes inside Close. */
  lemma ReceiveAndCrash(m: Manifest, root: nat) returns (es: seq<Event>)
    requires OneBlock(m, root)
    ensures New(m, root, 1).Some? && HarmlessRun(root, EmptyStore, es)
    ensures Exec(root, EmptyStore, es) == Host(HalfPromoted(m, root), None)
  {
    hide Exec, HarmlessRun, Perform, Negotiated, Receivable, New, Survives;
    StartedFacts(m, root);
    var id, data := m.transferId, m.files[0].digest.pre;
    NoEvents(root, EmptyStore);
    es := [];
    es := Next(root, EmptyStore, es, Begin([], false));
    CreatePerform(EmptyStore, m, root);
    es := Next(root, EmptyStore, es, Do(OpPrepare(m, 1, NoFault)));
    AttachPerform(Exec(root, EmptyStore, es).disk, Exec(root, EmptyStore, es).session.value, m, root);
    es := Next(root, EmptyStore, es, Do(OpNegotiate(m, 0, NoFault)));
    var s := Exec(root, EmptyStore, es).session.value;
    assert !Idle(s) && s.journal == Some(Started(m, root)) by { NegotiatedFacts(s, m, root); }
    OpenFirst(Exec(root, EmptyStore, es).disk, s, m, root);
    es := Next(root, EmptyStore, es, Do(OpOpen(0)));
    WriteOnly(Exec(root, EmptyStore, es).disk, Exec(root, EmptyStore, es).session.value, m, root);
    es := Next(root, EmptyStore, es, Do(OpWrite(0, data, false, 1, NoWriteFault)));
    assert Exec(root, EmptyStore, es).disk == Holding(m, root);
    FinishOnly(Holding(m, root), Exec(root, EmptyStore, es).session.value, m, root);
    es := Next(root, EmptyStore, es, Do(OpFinish(0, true)));
    CloseLinks(Exec(root, EmptyStore, es).session.value, m, root);
    es := Next(root, EmptyStore, es, CrashDuring(OpClose([]), 1, HalfPromoted(m, root)));
  }

  lemma NegotiatedFacts(s: Session, m: Manifest, root: nat)
    requires New(m, root, 1).Some? && Negotiated(s, m, root, false)
    ensures !Idle(s) && s.journal == Some(Started(m, root)) && s.sinks == map[]
  {}

  /** A run that stops with no session can be followed by any run from the disk it left. */
  lemma {:induction false} RunsCompose(root: nat, a: Disk, es: seq<Event>, b: Disk, more: seq<Event>)
    requires Exec(root, a, es) == Host(b, None)
    ensures Exec(root, a, es + more) == Exec(root, b, more)
    decreases |more|
  {
    hide Apply;
    if more == [] {
      assert es + more == es;
    } else {
      RunsCompose(root, a, es, b, more[..|more| - 1]);
      assert (es + more)[..|es + more| - 1] == es + more[..|more| - 1];
    }
  }

  /** From an empty store: a file is received, verified and put under its final name, Close
      crashes before the unlink, a discard is cut short, and a later authenticated resume of
      the same id changes the delivered file. */
  lemma DeliveredFileCanBeLost(m: Manifest, root: nat) returns (es: seq<Event>, more: seq<Event>)
    requires OneBlock(m, root)
    ensures var d, e := Exec(root, EmptyStore, es).disk, Exec(root, EmptyStore, es + more).disk;
            && m.files[0].name in d.finals && Holds(d, d.finals[m.files[0].name], m.files[0].digest.pre)
            && !FinalsKept(d, e)
  {
    hide Exec, HarmlessRun, Receivable, New, FinalsKept, DiskOk, Delivered, Apply;
    es := ReceiveAndCrash(m, root);
    var d, id := HalfPromoted(m, root), m.transferId;
    assert DiskOk({}, EmptyStore) && Delivered(EmptyStore) by { FreshStoreIsFine({}, EmptyStore); }
    NoTrustNeeded(root, EmptyStore, es);
    ReachableOk({}, root, EmptyStore, es);
    HostNames(Exec(root, EmptyStore, es));
    RunDelivered(root, EmptyStore, es);
    assert Key(id, 0) in d.parts && m.files[0].name in d.finals && d.parts[Key(id, 0)] == d.finals[m.files[0].name];
    assert Shares(d, id);
    var bare := DiscardCall(d, id).trace[0];
    var harm := SharedIsHarmed(root, d, id);
    var cut := es + [DiscardInterrupted(id)];
    assert Exec(root, EmptyStore, cut) == Host(bare, None) by { CutIs(root, es, d, id); }
    RunsCompose(root, EmptyStore, cut, bare, harm);
    more := [DiscardInterrupted(id)] + harm;
    assert es + more == cut + harm;
  }

  lemma CutIs(root: nat, es: seq<Event>, d: Disk, id: Id)
    requires Exec(root, EmptyStore, es) == Host(d, None)
    ensures Exec(root, EmptyStore, es + [DiscardInterrupted(id)]) == Host(DiscardCall(d, id).trace[0], None)
  {
    assert (es + [DiscardInterrupted(id)])[..|es|] == es;
  }

  /** One such manifest: a file named "a" holding one byte. */
  function Example(): Manifest {
    Manifest(seq(32, _ => 0x30), [FileEntry(0, [0x61], 1, 0, 1, 1, Sha([7]))], 1)
  }

  lemma ExamplePath()
    ensures SafePath.PathOk([0x61]) && SafePath.Canonical([0x61]) == [0x61] && !Collides([0x61])
  {
    assert SafePath.Canonical([0x61]) == [0x61];
    var s: seq<byte> := [0x61];
    assert s[1..] == [] && SafePath.Split(s[1..]) == [[]];
    assert [s[0]] + SafePath.Split(s[1..])[0] == s && SafePath.Split(s[1..])[1..] == [];
    assert SafePath.Split(s) == [s];
    assert SafePath.ValidUtf8([0x61]) by { assert [0x61][1..] == []; }
    assert !SafePath.Reserved([0x61]);
  }

  lemma ExampleIsOneBlock(root: nat)
    ensures OneBlock(Example(), root)
  {
    hide SafePath.PathOk, Collides;
    ExamplePath();
    var m := Example();
    OneByteBlocks(1);
    assert SafePath.SizeSum(m.files) == 1 by { assert m.files[..0] == []; assert SafePath.SizeSum(m.files[..0]) == 0; }
    assert SafePath.EntryOk(m.files[0], 0);
    assert SafePath.CanonicalFiles(m.files) == m.files;
    assert SafePath.ManifestOk(m);
    Journaled(m, root);
  }
}
