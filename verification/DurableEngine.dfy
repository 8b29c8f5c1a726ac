/** Durable receives as the transfer engine sees them: what survives is a prefix of the
    source, it never shrinks, and a resumed session starts from exactly what it advertises. */
module DurableEngine {
  import opened Wire
  import opened Geometry
  import opened Journals
  import opened Storage
  import opened Durable
  import opened DurableSafety
  import opened DurableResults
  import opened DurablePromotion
  import R = ReceiverModel
  import E = ReceiverSafety
  import S = SenderModel
  import SafePath

  // ---------------------------------------------------------------- the source

  /** With honest senders the durable part of every partial is a prefix of the source, at
      every crash point of every run. */
  lemma DurablePrefixIsSource(q: set<Id>, root: nat, start: Disk, es: seq<Event>, op: Op, at: nat, id: Id, f: nat)
    requires DiskOk(q, start) && HonestRun(q, root, start, es) && id in q
    requires Exec(root, start, es).session.Some? ==> Honest(q, Exec(root, start, es).session.value, op)
    requires at < |CrashPoints(root, start, es, op)|
    ensures var d := CrashPoints(root, start, es, op)[at];
            id in d.journals && d.journals[id].Whole? && f < |d.journals[id].j.files| ==>
              var s := d.journals[id].j.files[f];
              s.committed > 0 && PartOf(d, id, f).Some? ==>
                && 0 <= CommittedBytes(s) <= |PartOf(d, id, f).value.data|
                && PartOf(d, id, f).value.data[..CommittedBytes(s)] <= s.entry.digest.pre
  {
    hide Exec, Perform, Honest, HonestRun, CommittedBytes, Blocks;
    ReachableOk(q, root, start, es);
    var h := Exec(root, start, es);
    if h.session.Some? { PerformOk(q, root, h.disk, h.session.value, op); }
    var d := CrashPoints(root, start, es, op)[at];
    assert DiskOk(q, d);
    if id in d.journals && d.journals[id].Whole? && f < |d.journals[id].j.files| {
      assert JournalOk(q, d, id, d.journals[id]);
      var j := d.journals[id].j;
      assert Backed(q, d, id, f, j.files[f]) && FileStateOk(j.files[f], f, j.files[0].entry.blockSize);
    }
  }

  /** After any number of sessions, crashes and resumes, a Close that succeeds has put the
      byte string each manifest digest was computed over under its final name. */
  lemma PromotedFilesAreTheSource(root: nat, start: Disk, es: seq<Event>, modes: seq<PromoteMode>)
    requires DiskOk({}, start)
    requires var h := Exec(root, start, es);
             h.session.Some? && !Idle(h.session.value) && Perform(root, h.disk, h.session.value, OpClose(modes)).call.ok
    ensures var h := Exec(root, start, es);
            var d := Perform(root, h.disk, h.session.value, OpClose(modes)).call.disk;
            && h.session.value.journal.Some?
            && var j := h.session.value.journal.value;
               && j.transferId !in d.journals
               && forall f :: 0 <= f < |j.files| ==>
                    && j.files[f].entry.name in d.finals && d.finals[j.files[f].entry.name] in d.files
                    && d.files[d.finals[j.files[f].entry.name]].data == j.files[f].entry.digest.pre
  {
    hide Exec, DiskOk, SessionOk, AllFinished, PromoteAll, CloseSafe;
    NoTrustNeeded(root, start, es);
    ReachableOk({}, root, start, es);
    var h := Exec(root, start, es);
    var s := h.session.value;
    Finished(s);
    var c := Close(h.disk, s, modes).call;
    assert c.disk == Seen(c)[|c.trace|];
    CloseIsSafe({}, h.disk, s, modes, |c.trace|);
    SafeFinals(h.disk, c.disk, s.journal.value);
  }

  lemma SafeFinals(d: Disk, e: Disk, j: Journal)
    requires CloseSafe(d, e, j) && j.transferId !in e.journals
    ensures forall f :: 0 <= f < |j.files| ==>
              && j.files[f].entry.name in e.finals && e.finals[j.files[f].entry.name] in e.files
              && e.files[e.finals[j.files[f].entry.name]].data == j.files[f].entry.digest.pre
  {}

  // ---------------------------------------------------------------- progress

  /** The journal records at least as much for every file of the same manifest. */
  predicate AtLeast(a: Journal, b: Journal) {
    && b.transferId == a.transferId && b.fingerprint == a.fingerprint && |b.files| == |a.files|
    && (forall f :: 0 <= f < |a.files| ==>
          b.files[f].entry == a.files[f].entry && a.files[f].committed <= b.files[f].committed)
  }

  /** What became of journal `id`: it still records at least as much, or it was dropped by a
      Close that had put every one of its files under its final name. */
  predicate ProgressKept(d: Disk, e: Disk, id: Id) {
    id in d.journals && d.journals[id].Whole? ==>
      var j := d.journals[id].j;
      || (id in e.journals && e.journals[id].Whole? && AtLeast(j, e.journals[id].j))
      || (id !in e.journals && forall f :: 0 <= f < |j.files| ==>
            && j.files[f].entry.name in e.finals
            && Holds(e, e.finals[j.files[f].entry.name], j.files[f].entry.digest.pre))
  }

  lemma CommitAtLeast(e: Disk, s: Session, f: nat, bytes: seq<byte>, stateful: bool, now: int, fault: WriteFault)
    requires f in s.sinks && s.journal.Some?
    ensures var t := CommitBlock(e, s, f, bytes, stateful, now, fault).session;
            t.journal.Some? && AtLeast(s.journal.value, t.journal.value)
  {
    hide SaveJournal, CommittedBytes;
  }

  lemma WriteAtLeast(d: Disk, s: Session, f: nat, bytes: seq<byte>, stateful: bool, now: int, fault: WriteFault)
    requires s.journal.Some?
    ensures var t := WriteBlock(d, s, f, bytes, stateful, now, fault).session;
            t.journal.Some? && AtLeast(s.journal.value, t.journal.value)
  {
    hide WriteBlock, CommitBlock, Then;
    WriteShape(d, s, f, bytes, stateful, now, fault);
    if f in s.sinks {
      forall b: Disk
        ensures var t := CommitBlock(b, s, f, bytes, stateful, now, fault).session;
                t.journal.Some? && AtLeast(s.journal.value, t.journal.value)
      {
        CommitAtLeast(b, s, f, bytes, stateful, now, fault);
      }
    }
  }

  lemma NegotiateAtLeast(d: Disk, s: Session, raw: Manifest, secret: nat, fault: JournalFault)
    requires s.journal.Some?
    ensures var t := Negotiate(d, s, raw, secret, fault).session;
            t.journal.Some? && AtLeast(s.journal.value, t.journal.value)
  {
    hide SafePath.Validate, SaveJournal, ResumeStateFor;
  }

  lemma PerformAtLeast(root: nat, d: Disk, s: Session, op: Op)
    requires SessionOk({}, d, s) && !Idle(s) && s.journal.Some?
    ensures var t := Perform(root, d, s, op).session;
            t.journal.Some? && AtLeast(s.journal.value, t.journal.value)
  {
    hide Prepare, Negotiate, WriteBlock, SinkOk, SeedOk, Valid, Truncate, CommittedBytes, PromoteAll, AllFinished;
    match op {
      case OpPrepare(m, now, fault) => PreparedTwice(d, s, m, root, now, fault);
      case OpNegotiate(m, secret, fault) => NegotiateAtLeast(d, s, m, secret, fault);
      case OpWrite(f, bytes, stateful, now, fault) => WriteAtLeast(d, s, f, bytes, stateful, now, fault);
      case OpOpen(f) => OpenJournal(d, s, f);
      case _ =>
    }
  }

  /** Only a Close ever drops a journal. */
  lemma OnlyCloseDrops(root: nat, d: Disk, s: Session, op: Op, at: nat)
    requires DiskOk({}, d) && SessionOk({}, d, s) && !Idle(s) && s.journal.Some?
    requires at < |Seen(Perform(root, d, s, op).call)|
    requires s.journal.value.transferId !in Seen(Perform(root, d, s, op).call)[at].journals
    ensures op.OpClose? && AllFinished(s)
  {
    hide Prepare, Negotiate, WriteBlock, SinkOk, SeedOk, Valid, Perform, AllFinished, DiskOk;
    PerformOwn(root, d, s, op);
    PerformAtLeast(root, d, s, op);
    var r := Perform(root, d, s, op);
    assert OwnJournalOnly(d, Seen(r.call)[at], if op.OpClose? then s.journal else None, r.session.journal);
    if op.OpClose? && !AllFinished(s) { UnfinishedClose(root, d, s, op); }
  }

  lemma UnfinishedClose(root: nat, d: Disk, s: Session, op: Op)
    requires op.OpClose? && !AllFinished(s)
    ensures Perform(root, d, s, op).call == Refuse(d)
  {
    hide AllFinished;
  }

  /** At every crash point of a call no recorded progress is lost. */
  lemma CallKeepsProgress(root: nat, d: Disk, s: Session, op: Op, at: nat, id: Id)
    requires DiskOk({}, d) && (Idle(s) || SessionOk({}, d, s))
    requires at < |Seen(Perform(root, d, s, op).call)|
    ensures ProgressKept(d, Seen(Perform(root, d, s, op).call)[at], id)
  {
    hide DiskOk, Perform, SinkOk, SeedOk, Valid, CloseSafe, AllFinished;
    PerformOwn(root, d, s, op);
    var r := Perform(root, d, s, op);
    var e := Seen(r.call)[at];
    assert OwnJournalOnly(d, e, if op.OpClose? then s.journal else None, r.session.journal);
    if Idle(s) {
      IdleKeeps(root, d, s, op);
    } else if s.journal.Some? {
      PerformAtLeast(root, d, s, op);
      if id == s.journal.value.transferId && id !in e.journals {
        OnlyCloseDrops(root, d, s, op, at);
        assert r.call == Close(d, s, op.modes).call by { CloseIs(root, d, s, op); }
        CloseIsSafe({}, d, s, op.modes, at);
        DroppedHome(d, e, s.journal.value);
      }
    } else {
      UnjournaledKeeps(root, d, s, op);
    }
  }

  lemma CloseIs(root: nat, d: Disk, s: Session, op: Op)
    requires op.OpClose? && !Idle(s)
    ensures Perform(root, d, s, op) == Close(d, s, op.modes)
  {}

  lemma DroppedHome(d: Disk, e: Disk, j: Journal)
    requires CloseSafe(d, e, j) && j.transferId !in e.journals
    ensures forall f :: 0 <= f < |j.files| ==>
              j.files[f].entry.name in e.finals && Holds(e, e.finals[j.files[f].entry.name], j.files[f].entry.digest.pre)
  {}

  lemma CrashKeepsProgress(d: Disk, e: Disk, found: Disk, id: Id)
    requires ProgressKept(d, e, id) && DiskOk({}, e) && Survives(e, found)
    ensures ProgressKept(d, found, id)
  {
    hide Valid, Backed;
    if id in e.journals { assert JournalOk({}, e, id, e.journals[id]); }
    if id in d.journals && d.journals[id].Whole? && id !in e.journals {
      var j := d.journals[id].j;
      forall f | 0 <= f < |j.files|
        ensures j.files[f].entry.name in found.finals
        ensures Holds(found, found.finals[j.files[f].entry.name], j.files[f].entry.digest.pre)
      {
        assert FileSurvives(e.files[e.finals[j.files[f].entry.name]], found.files[e.finals[j.files[f].entry.name]]);
      }
    }
  }

  lemma SameProgress(d: Disk, id: Id)
    ensures ProgressKept(d, d, id)
  {}

  /** In every run, no event but an explicit discard of that transfer loses recorded progress:
      an abort, an error, a crash at any point or another session leaves at least as much. */
  lemma ProgressNeverLost(root: nat, start: Disk, es: seq<Event>, e: Event, id: Id)
    requires DiskOk({}, start) && e != Discard(id) && e != DiscardInterrupted(id)
    ensures var h := Exec(root, start, es);
            ProgressKept(h.disk, Apply(root, h, e).disk, id)
  {
    hide Exec, DiskOk, Perform, Survives, ProgressKept, SessionOk;
    NoTrustNeeded(root, start, es);
    ReachableOk({}, root, start, es);
    var h := Exec(root, start, es);
    SameProgress(h.disk, id);
    match e {
      case Do(op) =>
        if h.session.Some? {
          var c := Perform(root, h.disk, h.session.value, op).call;
          assert Seen(c)[|c.trace|] == c.disk;
          CallKeepsProgress(root, h.disk, h.session.value, op, |c.trace|, id);
        }
      case CrashDuring(op, at, found) =>
        if h.session.Some? {
          var seen := Seen(Perform(root, h.disk, h.session.value, op).call);
          if at < |seen| && Survives(seen[at], found) {
            CallKeepsProgress(root, h.disk, h.session.value, op, at, id);
            PerformOk({}, root, h.disk, h.session.value, op);
            CrashKeepsProgress(h.disk, seen[at], found, id);
          }
        }
      case Crash(found) => if Survives(h.disk, found) { CrashKeepsProgress(h.disk, h.disk, found, id); }
      case Discard(gone) => DiscardKeeps(h.disk, gone, id);
      case DiscardInterrupted(gone) => DiscardKeeps(h.disk, gone, id);
      case _ =>
    }
  }

  lemma DiscardKeeps(d: Disk, gone: Id, id: Id)
    requires gone != id
    ensures ProgressKept(d, DiscardCall(d, gone).disk, id) && ProgressKept(d, DiscardCall(d, gone).trace[0], id)
  {}

  // ---------------------------------------------------------------- the engine's contract

  function ClaimFiles(seeds: seq<Seed>, n: nat): map<int, R.FileProgress>
    requires n <= |seeds|
  {
    if n == 0 then map[]
    else
      var seed := seeds[n - 1];
      ClaimFiles(seeds, n - 1)[n - 1 :=
        R.FileProgress(seed.haveBlocks, if seed.haveBlocks == 0 then None else Some(seed.digest))]
  }

  /** The resume claim a session hands to the receiving engine. */
  function Claim(j: Journal, seeds: seq<Seed>): R.ReceiverResume {
    R.ReceiverResume(j.transferId, Some(j.fingerprint), ClaimFiles(seeds, |seeds|))
  }

  /** What its destination holds once every partial has been cut to its checkpoint. */
  function Persisted(d: Disk, j: Journal): map<nat, seq<byte>> {
    map f: nat | 0 <= f < |j.files| && PartOf(d, j.transferId, f).Some?
                 && 0 <= CommittedBytes(j.files[f]) <= |PartOf(d, j.transferId, f).value.data| ::
      PartOf(d, j.transferId, f).value.data[..CommittedBytes(j.files[f])]
  }

  lemma {:induction false} ClaimLists(seeds: seq<Seed>, n: nat)
    requires n <= |seeds|
    ensures var files := ClaimFiles(seeds, n);
            && |files| == n && (forall f :: f in files <==> 0 <= f < n)
            && (forall f :: 0 <= f < n ==>
                  files[f] == R.FileProgress(seeds[f].haveBlocks,
                                             if seeds[f].haveBlocks == 0 then None else Some(seeds[f].digest)))
  {
    if n > 0 {
      ClaimLists(seeds, n - 1);
      var rest := ClaimFiles(seeds, n - 1);
      assert ClaimFiles(seeds, n).Keys == rest.Keys + {n - 1};
    }
  }

  /** The claim passes the checks the receiving engine makes against the manifest. */
  lemma ClaimAccepted(j: Journal, seeds: seq<Seed>, m: Manifest)
    requires LowerHex(j.transferId, 32) && |seeds| == |j.files| && m.files == Entries(j.files)
    requires j.fingerprint == Fingerprint(m)
    requires forall f :: 0 <= f < |j.files| ==> FileStateOk(j.files[f], f, j.files[0].entry.blockSize)
    requires forall f :: 0 <= f < |j.files| ==> seeds[f].haveBlocks == j.files[f].committed
    ensures R.SeedOk(m, Claim(j, seeds))
  {
    hide Blocks;
    ClaimLists(seeds, |seeds|);
    var files := Claim(j, seeds).files;
    forall i | 0 <= i < |m.files|
      ensures m.files[i].idx in files && 0 <= files[m.files[i].idx].haveBlocks <= m.files[i].blocks
    {
      assert FileStateOk(j.files[i], i, j.files[0].entry.blockSize);
    }
  }

  lemma HonestFile(d: Disk, j: Journal, seeds: seq<Seed>, c: S.Config, f: nat)
    requires c.manifest.files == Entries(j.files) && c.manifest.transferId == j.transferId != [] && |seeds| == |j.files|
    requires R.SeedOk(c.manifest, Claim(j, seeds)) && f < |j.files|
    requires SeedOk(d, j, f, seeds[f]) && FileStateOk(j.files[f], f, j.files[0].entry.blockSize)
    ensures E.HostHonest(E.Setup(c, Some(Claim(j, seeds)), Persisted(d, j)), f)
  {
    hide R.SeedOk, Blocks, CommittedBytes, Pos, PartOf;
    ClaimPos(j, f);
    ClaimLists(seeds, |seeds|);
    var x := E.Setup(c, Some(Claim(j, seeds)), Persisted(d, j));
    assert E.Resuming(x) && E.Held(x, f) == seeds[f].haveBlocks;
    assert E.Entry(x, f) == j.files[f].entry;
    if seeds[f].haveBlocks == 0 { assert |E.Stored0(x, f)| == 0; }
  }

  /** A session that has negotiated gives the engine exactly what the engine relies on: each
      file holds the claimed blocks, and the seed digest has been fed exactly those bytes. */
  lemma SeedsAreHonest(root: nat, start: Disk, es: seq<Event>, c: S.Config, f: nat)
    requires DiskOk({}, start)
    requires var h := Exec(root, start, es);
             && h.session.Some? && !Idle(h.session.value) && h.session.value.journal.Some?
             && h.session.value.seeds.Some? && h.session.value.sinks == map[]
             && Fingerprint(c.manifest) == h.session.value.journal.value.fingerprint
             && c.manifest.files == Entries(h.session.value.journal.value.files)
             && f < |c.manifest.files|
    ensures var h := Exec(root, start, es);
            var j := h.session.value.journal.value;
            E.HostHonest(E.Setup(c, Some(Claim(j, h.session.value.seeds.value)), Persisted(h.disk, j)), f)
  {
    hide Exec, DiskOk, R.SeedOk, E.HostHonest, Backed, Blocks, SeedOk, SinkOk, FileStateOk, NamesOk;
    NoTrustNeeded(root, start, es);
    ReachableOk({}, root, start, es);
    var h := Exec(root, start, es);
    var s := h.session.value;
    var j := s.journal.value;
    SessionJournal({}, h.disk, s);
    assert c.manifest.transferId == j.transferId != [] && LowerHex(j.transferId, 32) by { ValidIds(j, c.manifest); }
    assert forall g :: 0 <= g < |j.files| ==> SeedOk(h.disk, j, g, s.seeds.value[g]);
    forall g | 0 <= g < |j.files| ensures s.seeds.value[g].haveBlocks == j.files[g].committed {
      SeedHave(h.disk, j, g, s.seeds.value[g]);
    }
    ClaimAccepted(j, s.seeds.value, c.manifest);
    HonestFile(h.disk, j, s.seeds.value, c, f);
  }

  lemma SeedHave(d: Disk, j: Journal, f: nat, seed: Seed)
    requires SeedOk(d, j, f, seed)
    ensures seed.haveBlocks == j.files[f].committed
  {}

  lemma ValidIds(j: Journal, m: Manifest)
    requires Valid(j) && Fingerprint(m) == j.fingerprint
    ensures m.transferId == j.transferId != [] && LowerHex(j.transferId, 32)
  {
    hide SafePath.ManifestOk;
  }
}
