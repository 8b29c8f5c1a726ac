/** The durable destination as an object: each method performs its disk operations one by one
    and records every disk a crash could have found. */
module DurableObject {
  import opened Wire
  import opened Geometry
  import opened Journals
  import opened Storage
  import opened Durable
  import DurableSafety
  import DurableResults
  import SafePath

  const READ_BUFFER: nat := 64 * 1024

  /** Feeds the first `n` bytes of a file to a digest, in reads that may come back short; fails
      when the file ends before that. */
  method HashPrefix(data: seq<byte>, n: nat) returns (digest: Option<seq<byte>>)
    ensures digest == if n <= |data| then Some(data[..n]) else None
  {
    var fed: seq<byte> := [];
    var remaining := n;
    while remaining > 0
      invariant 0 <= remaining && |fed| + remaining == n && |fed| <= |data| && fed == data[..|fed|]
      decreases remaining
    {
      var most := if remaining < READ_BUFFER then remaining else READ_BUFFER;
      var left := |data| - |fed|;
      if left == 0 { return None; }
      var limit := if left < most then left else most;
      assert 0 < 1 <= limit;
      var read: nat :| 0 < read <= limit;
      fed := fed + data[|fed|..|fed| + read];
      remaining := remaining - read;
    }
    digest := Some(fed);
  }

  class Destination {
    const root: nat
    var disk: Disk
    var gate: Gate
    var flags: Flags
    var journal: Option<Journal>
    var resumed: bool
    var seeds: Option<seq<Seed>>
    var sinks: map<nat, Sink>
    ghost var seen: seq<Disk>

    function View(): Session
      reads this
    {
      Session(gate, flags, journal, resumed, seeds, sinks)
    }

    /** The object went through a call: same disks, same session. */
    ghost predicate Did(before: seq<Disk>, r: Result)
      reads this
    {
      disk == r.call.disk && View() == r.session && seen == before + Seen(r.call)
    }

    constructor (d: Disk, location: nat, selected: Id, authorized: bool)
      ensures root == location && disk == d && seen == [] && View() == NewSession(selected, authorized)
    {
      root, disk, seen := location, d, [];
      gate, flags := Gate(selected, authorized), Flags(false, false, false);
      journal, resumed, seeds, sinks := None, false, None, map[];
    }

    method Refuse()
      modifies this`flags, this`seen
      ensures Did(old(seen), Result(Storage.Refuse(old(disk)), Stop(old(View()))))
    {
      flags := flags.(stopped := true);
      seen := seen + [disk];
    }

    /** One disk operation. */
    method Put(d: Disk)
      modifies this`disk, this`seen
      ensures disk == d && seen == old(seen) + [d]
    {
      disk := d;
      seen := seen + [d];
    }

    /** The atomic replacement of the journal file. */
    method WriteJournal(j: Journal, fault: JournalFault) returns (ok: bool)
      modifies this`disk, this`seen
      ensures var c := SaveJournal(old(disk), j, fault);
              ok == c.ok && disk == c.disk && seen == old(seen) + Seen(c)
    {
      hide Valid;
      if !Valid(j) {
        Put(disk);
        return false;
      }
      ghost var start := disk;
      Put(disk.(temp := Some(Temp(j, false))));
      if fault == TempWrite || fault == TempSync {
        Put(disk.(temp := None));
        return false;
      }
      Put(disk.(temp := Some(Temp(j, true))));
      if fault == Rename {
        Put(disk.(temp := None));
        return false;
      }
      Put(disk.(journals := disk.journals[j.transferId := RenamedSlot(disk.temp.value)], temp := None));
      ok := true;
    }

    /** Moves the checkpoint in memory, then on disk. */
    method CommitBlocks(f: nat, bytes: seq<byte>, stateful: bool, now: int, fault: WriteFault)
      requires f in sinks && journal.Some?
      modifies this
      ensures Did(old(seen), CommitBlock(old(disk), old(View()), f, bytes, stateful, now, fault))
    {
      hide SaveJournal, Record, Seen;
      var k := sinks[f];
      var j := Record(journal.value, f, k.next + 1, if stateful then Some(k.digest + bytes) else None, now);
      if j == None {
        Refuse();
        return;
      }
      journal := j;
      if fault.OverBudget? {
        Refuse();
        return;
      }
      var ok := WriteJournal(j.value, if fault.JournalFails? then fault.at else NoFault);
      if !ok {
        flags := flags.(stopped := true);
        return;
      }
      sinks := sinks[f := k.(next := k.next + 1, digest := k.digest + bytes)];
    }

    /** One verified block: data write, sync, checkpoint. */
    method Write(f: nat, bytes: seq<byte>, stateful: bool, now: int, fault: WriteFault)
      modifies this
      ensures Did(old(seen), WriteBlock(old(disk), old(View()), f, bytes, stateful, now, fault))
    {
      hide CommitBlock, WriteAt, Sync, BlockLength;
      if f !in sinks || sinks[f].finished || journal == None || flags.closed || f >= |journal.value.files| {
        Refuse();
        return;
      }
      var k, e := sinks[f], journal.value.files[f].entry;
      if || k.inode !in disk.files || !FileOk(disk.files[k.inode])
         || k.next >= e.blocks || |bytes| != BlockLength(e, k.next) || e.blockSize < 0 {
        Refuse();
        return;
      }
      MulNonNegative(k.next, e.blockSize);
      var offset: nat := k.next * e.blockSize;
      if fault.ShortWrite? {
        Put(SetFile(disk, k.inode, WriteAt(disk.files[k.inode], offset, bytes[..Min(fault.n, |bytes|)])));
        flags := flags.(stopped := true);
        return;
      }
      ghost var d, s, log := disk, View(), seen;
      Put(SetFile(disk, k.inode, WriteAt(disk.files[k.inode], offset, bytes)));
      if fault.SyncFails? {
        flags := flags.(stopped := true);
        return;
      }
      ghost var written := disk;
      Put(SetFile(disk, k.inode, Sync(disk.files[k.inode])));
      ghost var synced := disk;
      assert synced == SetFile(d, k.inode, Sync(written.files[k.inode])) by {
        SetFileTwice(d, k.inode, written.files[k.inode], Sync(written.files[k.inode]));
      }
      CommitBlocks(f, bytes, stateful, now, fault);
      SeenWrite(log, written, synced, CommitBlock(synced, s, f, bytes, stateful, now, fault).call);
    }

    /** Promotes one file without ever overwriting a final name. */
    method PromoteFile(key: Key, name: seq<byte>, mode: PromoteMode) returns (ok: bool)
      modifies this`disk, this`seen
      ensures var c := Promote(old(disk), key, name, mode);
              ok == c.ok && disk == c.disk && seen == old(seen) + Seen(c)
    {
      if key !in disk.parts || name in disk.finals {
        Put(disk);
        return false;
      }
      var linked := disk.(finals := disk.finals[name := disk.parts[key]]);
      match mode {
        case ByLink =>
          Put(linked);
          Put(linked.(parts := linked.parts - {key}));
          ok := true;
        case UnlinkFails =>
          Put(linked);
          ok := false;
        case ByRename =>
          Put(linked.(parts := linked.parts - {key}));
          ok := true;
        case BothFail =>
          Put(disk);
          ok := false;
      }
    }

    /** Promotes every file in order, stopping at the first failure. */
    method PromoteEvery(j: Journal, modes: seq<PromoteMode>) returns (ok: bool)
      modifies this`disk, this`seen
      ensures var c := PromoteAll(old(disk), j, |j.files|, modes);
              ok == c.ok && disk == c.disk && seen == old(seen) + Seen(c)
    {
      hide Promote, Seen, Then;
      seen := seen + [disk];
      assert Seen(Nothing(disk)) == [disk] by { SeenNothing(disk); }
      var n := 0;
      while n < |j.files|
        invariant 0 <= n <= |j.files|
        invariant var c := PromoteAll(old(disk), j, n, modes); c.ok && disk == c.disk && seen == old(seen) + Seen(c)
      {
        ghost var before := PromoteAll(old(disk), j, n, modes);
        ok := PromoteFile(Key(j.transferId, n), j.files[n].entry.name, ModeAt(modes, n));
        ghost var p := Promote(before.disk, Key(j.transferId, n), j.files[n].entry.name, ModeAt(modes, n));
        assert PromoteAll(old(disk), j, n + 1, modes) == Then(before, p);
        DurableSafety.SeenThen(before, p);
        ThenIs(before, p);
        n := n + 1;
        if !ok {
          StopsEarly(old(disk), j, n, |j.files|, modes);
          return;
        }
      }
      ok := true;
    }

    /** Promotes every file, then drops the journal and the partial tree. */
    method Close(modes: seq<PromoteMode>)
      modifies this
      ensures Did(old(seen), Durable.Close(old(disk), old(View()), modes))
    {
      hide PromoteAll, AllFinished;
      var done := AllFinished(View());
      if flags.closed || !done {
        Refuse();
        return;
      }
      assert journal.Some? by { DurableResults.Finished(View()); }
      flags := flags.(closed := true);
      var j := journal.value;
      var ok := PromoteEvery(j, modes);
      if !ok {
        flags := flags.(stopped := true);
        return;
      }
      ghost var all := PromoteAll(old(disk), j, |j.files|, modes);
      DurableSafety.SeenThen(all, DiscardCall(all.disk, j.transferId));
      Put(disk.(journals := disk.journals - {j.transferId}));
      Put(RemoveParts(disk, j.transferId));
    }

    // -------------------------------------------------------------- preparing and resuming

    /** Validates the manifest and establishes the journal, or refuses. */
    method Prepare(raw: Manifest, now: int, fault: JournalFault)
      modifies this
      ensures Did(old(seen), Durable.Prepare(old(disk), old(View()), raw, root, now, fault))
    {
      hide SafePath.Validate, SaveJournal, New, LoadJournal, CreateJournal, AdoptJournal;
      var v := SafePath.ValidateManifest(raw);
      if v == None || flags.prepared {
        Refuse();
        return;
      }
      var m := v.value;
      flags := flags.(prepared := true);
      var clash := HasCollision(m.files);
      if m.transferId == [] || clash {
        Refuse();
        return;
      }
      var loaded := LoadJournal(disk, m.transferId);
      match loaded {
        case Unusable => Refuse();
        case Missing => CreateFresh(m, now, fault);
        case Found(j) => Adopt(m, j);
      }
    }

    method HasCollision(files: seq<FileEntry>) returns (clash: bool)
      ensures clash <==> exists i :: 0 <= i < |files| && Collides(files[i].name)
    {
      for i := 0 to |files|
        invariant forall k :: 0 <= k < i ==> !Collides(files[k].name)
      {
        if Collides(files[i].name) { return true; }
      }
      clash := false;
    }

    method CreateFresh(m: Manifest, now: int, fault: JournalFault)
      modifies this
      ensures Did(old(seen), CreateJournal(old(disk), old(View()), m, root, now, fault))
    {
      hide SaveJournal, New;
      var j := New(m, root, now);
      if j == None {
        Refuse();
        return;
      }
      journal := j;
      var ok := WriteJournal(j.value, fault);
      if !ok { flags := flags.(stopped := true); }
    }

    /** An existing journal is taken over only by a session that authenticated a resume of it. */
    method Adopt(m: Manifest, j: Journal)
      modifies this
      ensures Did(old(seen), AdoptJournal(old(disk), old(View()), m, root, j))
    {
      if j.fingerprint != Fingerprint(m) {
        Refuse();
        return;
      }
      var authorized :=
        gate.authorized && gate.selected != [] && gate.selected == j.transferId && gate.selected == m.transferId;
      if !authorized || j.destination != root {
        Refuse();
        return;
      }
      journal, resumed := Some(j), true;
      seen := seen + [disk];
    }

    /** The seed of one file: its stored digest when this runtime wrote it, else a re-hash. */
    method SeedOf(id: Id, f: nat, s: FileState) returns (seed: Option<Seed>)
      ensures seed == SeedFor(disk, id, f, s)
    {
      if s.committed == 0 { return Some(Seed(0, [])); }
      var part := PartOf(disk, id, f);
      var claim := CommittedBytes(s);
      if part == None || |part.value.data| < claim || claim < 0 { return None; }
      if s.checkpoint.Some? && s.checkpoint.value.native { return Some(Seed(s.committed, s.checkpoint.value.state)); }
      var digest := HashPrefix(part.value.data, claim);
      seed := Some(Seed(s.committed, digest.value));
    }

    method SeedsOf(j: Journal) returns (all: Option<seq<Seed>>)
      ensures all == SeedsFor(disk, j, |j.files|)
    {
      hide SeedFor;
      var got: seq<Seed> := [];
      var n := 0;
      while n < |j.files|
        invariant 0 <= n <= |j.files| && SeedsFor(disk, j, n) == Some(got)
      {
        var seed := SeedOf(j.transferId, n, j.files[n]);
        n := n + 1;
        if seed == None {
          assert SeedsFor(disk, j, n) == None;
          SeedsStop(disk, j, n, |j.files|);
          return None;
        }
        got := got + [seed.value];
      }
      all := Some(got);
    }

    /** Opens the partial of one file: cut to the checkpoint, or created exclusively. */
    method Open(f: nat)
      modifies this
      ensures Did(old(seen), OpenPart(old(disk), old(View()), f))
    {
      hide CommittedBytes, Truncate;
      if flags.closed || !flags.prepared || journal == None || seeds == None {
        Refuse();
        return;
      }
      var j := journal.value;
      if f >= |j.files| || f >= |seeds.value| || f in sinks {
        Refuse();
        return;
      }
      var key, claim, part := Key(j.transferId, f), CommittedBytes(j.files[f]), PartOf(disk, j.transferId, f);
      var inode: nat;
      if resumed && part.Some? && FileOk(part.value) && 0 <= claim <= |part.value.data| {
        inode := disk.parts[key];
        Put(SetFile(disk, inode, Truncate(part.value, claim)));
      } else if key in disk.parts || (resumed && claim > 0) {
        Refuse();
        return;
      } else {
        inode := disk.next;
        Put(NewInode(disk, key));
      }
      var seed := seeds.value[f];
      sinks := sinks[f := Sink(inode, if seed.haveBlocks < 0 then 0 else seed.haveBlocks, seed.digest, false)];
    }
  }

  lemma {:induction false} SeedsStop(d: Disk, j: Journal, n: nat, m: nat)
    requires n <= m <= |j.files| && SeedsFor(d, j, n) == None
    ensures SeedsFor(d, j, m) == None
  {
    if n < m { SeedsStop(d, j, n, m - 1); }
  }

  lemma SeenNothing(d: Disk)
    ensures Seen(Nothing(d)) == [d]
  {}

  lemma ThenIs(a: Call, b: Call)
    ensures Then(a, b).disk == b.disk && Then(a, b).ok == b.ok
  {}

  lemma SetFileTwice(d: Disk, i: nat, a: File, b: File)
    ensures SetFile(SetFile(d, i, a), i, b) == SetFile(d, i, b)
  {}

  lemma SeenWrite(log: seq<Disk>, a: Disk, b: Disk, c: Call)
    ensures log + [a] + [b] + Seen(c) == log + Seen(Then(Call([], a, true), Then(Call([], b, true), c)))
  {}

  /** After a failed promotion nothing more is promoted. */
  lemma {:induction false} StopsEarly(d: Disk, j: Journal, n: nat, m: nat, modes: seq<PromoteMode>)
    requires n <= m <= |j.files| && !PromoteAll(d, j, n, modes).ok
    ensures PromoteAll(d, j, m, modes) == PromoteAll(d, j, n, modes)
  {
    if n < m { StopsEarly(d, j, n, m - 1, modes); }
  }
}
