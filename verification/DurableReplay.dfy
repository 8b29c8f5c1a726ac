/** The transfer engine on top of the durable destination: with an unchanged source, whatever
    the engine writes is what the destination takes for granted of an honest sender, through
    any number of sessions, crashes and resumes. */
module DurableReplay {
  import opened Wire
  import opened Geometry
  import opened Journals
  import opened Storage
  import opened Durable
  import opened DurableSafety
  import opened DurableResults
  import opened DurableEngine
  import R = ReceiverModel
  import E = ReceiverSafety
  import N = Engine
  import NR = EngineResults
  import L = ReceiverLog
  import S = SenderModel
  import SafePath

  // ---------------------------------------------------------------- what the engine hands over

  /** One block on its way from the engine to its sink. */
  datatype Handed = Handed(file: nat, bytes: seq<byte>)

  function HandedOf(ws: seq<R.Write>): seq<Handed> {
    seq(|ws|, i requires 0 <= i < |ws| => Handed(ws[i].file, ws[i].bytes))
  }

  function CountOf(hs: seq<Handed>, f: nat): nat {
    if hs == [] then 0 else CountOf(hs[..|hs| - 1], f) + if hs[|hs| - 1].file == f then 1 else 0
  }

  /** The blocks handed to the present session so far. */
  function Past(root: nat, start: Disk, es: seq<Event>): seq<Handed> {
    if es == [] then []
    else
      var init, e := es[..|es| - 1], es[|es| - 1];
      if e.Begin? && Exec(root, start, init).session == None then []
      else if e.Do? && e.op.OpWrite? then Past(root, start, init) + [Handed(e.op.f, e.op.bytes)]
      else Past(root, start, init)
  }

  /** The source streams the bytes its manifest was computed over. */
  predicate Unchanged(c: S.Config) {
    forall f :: 0 <= f < |c.manifest.files| && f < |c.streams| ==>
      |c.streams[f]| == c.manifest.files[f].size && Sha(c.streams[f]) == c.manifest.files[f].digest
  }

  predicate Own(c: S.Config, s: Session) {
    s.journal.Some? && s.journal.value.transferId == c.manifest.transferId
  }

  /** In run `es` of the two engines, which starts from what this session claims, the receiver
      writes these blocks, in this order, before any others. */
  predicate WritesFirst(c: S.Config, s: Session, hs: seq<Handed>, x: E.Setup, es: seq<N.Event>)
    requires s.journal.Some? && s.seeds.Some?
  {
    && E.SetupOk(x) && x.c == c && E.Resuming(x)
    && x.host == Some(Claim(s.journal.value, s.seeds.value))
    && hs <= HandedOf(N.Exec(x, es).r.out.writes)
  }

  ghost predicate Engine(c: S.Config, s: Session, hs: seq<Handed>)
    requires s.journal.Some? && s.seeds.Some?
  {
    exists x: E.Setup, es: seq<N.Event> :: WritesFirst(c, s, hs, x, es)
  }

  /** What the driver and the engine do in a session of transfer `c`: they prepare it with the
      manifest the sender sent, negotiate it once, and while it goes on write what some run of
      the engine writes next. Sessions of other transfers may do anything. */
  ghost predicate Driven(c: S.Config, s: Session, past: seq<Handed>, op: Op) {
    match op
    case OpPrepare(raw, _, _) =>
      var m := SafePath.Validate(raw);
      m.Some? && m.value.transferId == c.manifest.transferId ==> m.value == c.manifest
    case OpNegotiate(_, _, _) => Own(c, s) ==> s.seeds == None
    case OpWrite(f, bytes, _, _, _) =>
      Own(c, s) ==> !Idle(s) && (s.seeds.Some? ==> Engine(c, s, past + [Handed(f, bytes)]))
    case _ => true
  }

  ghost predicate DrivenEvent(c: S.Config, h: Host, past: seq<Handed>, e: Event) {
    h.session.Some? && (e.Do? || e.CrashDuring?) ==> Driven(c, h.session.value, past, e.op)
  }

  ghost predicate DrivenRun(c: S.Config, root: nat, start: Disk, es: seq<Event>) {
    es == [] ||
    var init := es[..|es| - 1];
    DrivenRun(c, root, start, init) && DrivenEvent(c, Exec(root, start, init), Past(root, start, init), es[|es| - 1])
  }

  // ---------------------------------------------------------------- counting

  lemma CountPush(hs: seq<Handed>, h: Handed, f: nat)
    ensures CountOf(hs + [h], f) == CountOf(hs, f) + if h.file == f then 1 else 0
  {
    assert (hs + [h])[..|hs|] == hs;
  }

  lemma {:induction false} SameCount(ws: seq<R.Write>, n: nat, f: nat)
    requires n <= |ws|
    ensures CountOf(HandedOf(ws)[..n], f) == L.CountOf(ws[..n], f)
  {
    if n > 0 {
      SameCount(ws, n - 1, f);
      assert HandedOf(ws)[..n][..n - 1] == HandedOf(ws)[..n - 1] && ws[..n][..n - 1] == ws[..n - 1];
    }
  }

  /** How far file `f` has got beyond what the session advertised. */
  function Ahead(s: Session, f: nat): int {
    if f in s.sinks && s.seeds.Some? && f < |s.seeds.value| then s.sinks[f].next - s.seeds.value[f].haveBlocks else 0
  }

  ghost predicate Tallied(s: Session, past: seq<Handed>) {
    forall f: nat :: Ahead(s, f) == CountOf(past, f)
  }

  /** A call that opens nothing and writes nothing leaves the tally alone. */
  lemma SameTally(s: Session, t: Session, past: seq<Handed>)
    requires Tallied(s, past)
    requires t.seeds == s.seeds || s.sinks == map[]
    requires t.sinks.Keys == s.sinks.Keys && forall f :: f in s.sinks ==> t.sinks[f].next == s.sinks[f].next
    ensures Tallied(t, past)
  {
    hide CountOf;
    forall f: nat ensures Ahead(t, f) == CountOf(past, f) { assert Ahead(s, f) == CountOf(past, f); }
  }

  lemma PrepareTally(d: Disk, s: Session, raw: Manifest, root: nat, now: int, fault: JournalFault)
    ensures var t := Prepare(d, s, raw, root, now, fault).session;
            t.sinks == s.sinks && t.seeds == s.seeds
  {
    hide SafePath.Validate, LoadJournal, New, SaveJournal, Collides;
  }

  lemma NegotiateTally(d: Disk, s: Session, raw: Manifest, secret: nat, fault: JournalFault)
    ensures Negotiate(d, s, raw, secret, fault).session.sinks == s.sinks
  {
    hide SafePath.Validate, ResumeStateFor, SaveJournal;
  }

  /** A file is opened where its seed ends, and had not been written to before. */
  lemma OpenTally(d: Disk, s: Session, f: nat, past: seq<Handed>)
    requires SessionOk({}, d, s) && !Idle(s) && Tallied(s, past) && s.journal.Some?
    ensures var t := OpenPart(d, s, f).session; Idle(t) || Tallied(t, past)
  {
    var t := OpenPart(d, s, f).session;
    if !Idle(t) {
      SeedNonNegative(d, s, f);
      hide SessionOk, CountOf, CommittedBytes, Truncate;
      forall g: nat ensures Ahead(t, g) == CountOf(past, g) { assert Ahead(s, g) == CountOf(past, g); }
    }
  }

  lemma SeedNonNegative(d: Disk, s: Session, f: nat)
    requires SessionOk({}, d, s) && s.journal.Some? && s.seeds.Some? && f < |s.seeds.value| && f !in s.sinks
    ensures 0 <= s.seeds.value[f].haveBlocks
  {
    hide SinkOk, SafePath.Validate, Blocks, CommittedBytes;
    assert SeedOk(d, s.journal.value, f, s.seeds.value[f]);
    assert FileStateOk(s.journal.value.files[f], f, s.journal.value.files[0].entry.blockSize);
  }

  lemma WriteShape(d: Disk, s: Session, f: nat, bytes: seq<byte>, stateful: bool, now: int, fault: WriteFault)
    ensures var t := WriteBlock(d, s, f, bytes, stateful, now, fault).session;
            Idle(t) || (f in s.sinks && t.seeds == s.seeds
                        && t.sinks == s.sinks[f := s.sinks[f].(next := s.sinks[f].next + 1,
                                                               digest := s.sinks[f].digest + bytes)])
  {
    hide SaveJournal, Record, WriteAt, Sync, BlockLength, Then;
  }

  lemma AheadAfter(s: Session, t: Session, f: nat, g: nat)
    requires f in s.sinks && s.seeds.Some? && f < |s.seeds.value| && t.seeds == s.seeds
    requires t.sinks.Keys == s.sinks.Keys && t.sinks[f].next == s.sinks[f].next + 1
    requires forall k :: k in s.sinks && k != f ==> t.sinks[k] == s.sinks[k]
    ensures Ahead(t, g) == Ahead(s, g) + if g == f then 1 else 0
  {}

  lemma WriteTally(d: Disk, s: Session, f: nat, bytes: seq<byte>, stateful: bool, now: int,
      fault: WriteFault, past: seq<Handed>)
    requires SessionOk({}, d, s) && Tallied(s, past)
    ensures var t := WriteBlock(d, s, f, bytes, stateful, now, fault).session;
            Idle(t) || Tallied(t, past + [Handed(f, bytes)])
  {
    WriteShape(d, s, f, bytes, stateful, now, fault);
    var t := WriteBlock(d, s, f, bytes, stateful, now, fault).session;
    if !Idle(t) {
      SinkListed(d, s, f);
      hide SessionOk, CountOf, WriteBlock, Ahead, Valid;
      forall g: nat ensures Ahead(t, g) == CountOf(past + [Handed(f, bytes)], g) {
        CountPush(past, Handed(f, bytes), g);
        AheadAfter(s, t, f, g);
        assert Ahead(s, g) == CountOf(past, g);
      }
    }
  }

  lemma SinkListed(d: Disk, s: Session, f: nat)
    requires SessionOk({}, d, s) && f in s.sinks
    ensures s.journal.Some? && s.seeds.Some? && f < |s.seeds.value| == |s.journal.value.files| && Valid(s.journal.value)
  {
    hide Valid, SeedOk;
    if s.journal.Some? { assert SinkOk({}, d, s.journal.value, f, s.sinks[f]); }
  }

  lemma NoSeedsNoSinks(d: Disk, s: Session)
    requires SessionOk({}, d, s) && (s.seeds == None || s.journal == None)
    ensures s.sinks == map[]
  {
    hide Valid, SeedOk, SinkOk;
  }

  /** The tally is kept by every call of a running session of this transfer. */
  lemma PerformTally(c: S.Config, root: nat, d: Disk, s: Session, op: Op, past: seq<Handed>)
    requires SessionOk({}, d, s) && !Idle(s) && Tallied(s, past) && Driven(c, s, past, op)
    requires s.journal == None || Own(c, s)
    ensures var t := Perform(root, d, s, op).session;
            Idle(t) || Tallied(t, if op.OpWrite? then past + [Handed(op.f, op.bytes)] else past)
  {
    hide SessionOk, Tallied, Driven, Prepare, Negotiate, OpenPart, WriteBlock, AllFinished, PromoteAll;
    var t := Perform(root, d, s, op).session;
    match op {
      case OpPrepare(m, now, fault) =>
        PrepareTally(d, s, m, root, now, fault);
        SameTally(s, t, past);
      case OpNegotiate(m, secret, fault) =>
        NegotiateTally(d, s, m, secret, fault);
        DrivenNegotiate(c, s, past, op);
        NoSeedsNoSinks(d, s);
        SameTally(s, t, past);
      case OpOpen(f) =>
        if s.journal.Some? { OpenTally(d, s, f, past); } else { NoJournalOpens(d, s, f); }
      case OpWrite(f, bytes, stateful, now, fault) => WriteTally(d, s, f, bytes, stateful, now, fault, past);
      case OpFinish(f, syncOk) => SameTally(s, t, past);
      case OpClose(modes) =>
    }
  }

  lemma NoJournalOpens(d: Disk, s: Session, f: nat)
    requires s.journal == None
    ensures Idle(OpenPart(d, s, f).session)
  {}

  lemma DrivenNegotiate(c: S.Config, s: Session, past: seq<Handed>, op: Op)
    requires Driven(c, s, past, op) && op.OpNegotiate?
    ensures Own(c, s) ==> s.seeds == None
  {}

  /** The running session of this transfer has taken exactly the blocks handed to it. */
  ghost predicate SessionTallied(c: S.Config, h: Host, past: seq<Handed>) {
    h.session.Some? && !Idle(h.session.value) && (h.session.value.journal == None || Own(c, h.session.value)) ==>
      Tallied(h.session.value, past)
  }

  /** A session does not change its transfer. */
  lemma KeepsTransfer(root: nat, d: Disk, s: Session, op: Op)
    requires SessionOk({}, d, s) && !Idle(s) && s.journal.Some?
    ensures var t := Perform(root, d, s, op).session;
            t.journal.Some? && t.journal.value.transferId == s.journal.value.transferId
  {
    hide SessionOk, Perform;
    PerformAtLeast(root, d, s, op);
  }

  lemma FreshTallied(selected: Id, authorized: bool)
    ensures Tallied(NewSession(selected, authorized), [])
  {}

  lemma {:induction false} RunTallied(c: S.Config, root: nat, start: Disk, es: seq<Event>)
    requires DiskOk({}, start) && DrivenRun(c, root, start, es)
    ensures SessionTallied(c, Exec(root, start, es), Past(root, start, es))
    decreases |es|
  {
    hide DiskOk, SessionOk, Tallied, Perform, Driven, Survives, DiscardCall;
    if es != [] {
      var init, e := es[..|es| - 1], es[|es| - 1];
      RunTallied(c, root, start, init);
      NoTrustNeeded(root, start, init);
      ReachableOk({}, root, start, init);
      var h := Exec(root, start, init);
      match e {
        case Begin(selected, authorized) => FreshTallied(selected, authorized);
        case Do(op) =>
          if h.session.Some? && !Idle(h.session.value) {
            if h.session.value.journal.Some? { KeepsTransfer(root, h.disk, h.session.value, op); }
            if h.session.value.journal == None || Own(c, h.session.value) {
              PerformTally(c, root, h.disk, h.session.value, op, Past(root, start, init));
            }
          } else if h.session.Some? {
            IdlePerforms(root, h.disk, h.session.value, op);
          }
        case _ =>
      }
    }
  }

  lemma IdlePerforms(root: nat, d: Disk, s: Session, op: Op)
    requires Idle(s)
    ensures Perform(root, d, s, op).session == s
  {}

  // ---------------------------------------------------------------- the writes are honest

  /** The block at position `n` of a run's writes follows the `n` before it, and is what the
      source streams there. */
  lemma NextWrite(x: E.Setup, es: seq<N.Event>, n: nat)
    requires E.SetupOk(x) && n < |N.Exec(x, es).r.out.writes|
    ensures var ws := N.Exec(x, es).r.out.writes;
            var f, b := ws[n].file, ws[n].block;
            && S.ValidFile(x.c, f) && b == E.Held(x, f) + CountOf(HandedOf(ws)[..n], f)
            && 0 <= b && ws[n].bytes == BlockOf(x.c.streams[f], x.c.manifest.files[f].blockSize, b)
  {
    hide N.Exec, E.SetupOk, E.Held, BlockOf, Blocks, E.FromStream, CountOf;
    L.WritesAreConsecutive(x, es);
    NR.SinksHoldCommittedBlocks(x, es);
    var ws := N.Exec(x, es).r.out.writes;
    assert E.WriteOk(x, N.Exec(x, es).r.prog, ws[n]);
    SameCount(ws, n, ws[n].file);
  }

  /** An engine that resumes from a claim holds what the claim says. */
  lemma ClaimHeld(x: E.Setup, j: Journal, seeds: seq<Seed>, f: nat)
    requires E.Resuming(x) && x.host == Some(Claim(j, seeds)) && f < |seeds|
    ensures E.Held(x, f) == seeds[f].haveBlocks
    ensures j.fingerprint == Fingerprint(x.c.manifest)
  {
    ClaimLists(seeds, |seeds|);
  }

  /** A valid journal has the block sizes and digests of the manifest it is bound to. */
  lemma SameGeometry(j: Journal, m: Manifest, f: nat)
    requires Valid(j) && j.fingerprint == Fingerprint(m) && f < |j.files|
    ensures f < |m.files| && j.files[f].entry.blockSize == m.files[f].blockSize
    ensures j.files[f].entry.digest == m.files[f].digest
  {
    hide SafePath.ManifestOk, FileStateOk;
    var entries := Entries(j.files);
    assert m.files == SafePath.CanonicalFiles(entries) && entries[f] == j.files[f].entry;
  }

  lemma SameSource(c: S.Config, f: nat)
    requires Unchanged(c) && S.ValidFile(c, f)
    ensures c.manifest.files[f].digest.pre == c.streams[f] && |c.streams[f]| == c.manifest.files[f].size
  {}

  lemma AheadCounts(s: Session, past: seq<Handed>, f: nat)
    requires Tallied(s, past) && f in s.sinks && s.seeds.Some? && f < |s.seeds.value|
    ensures s.sinks[f].next == s.seeds.value[f].haveBlocks + CountOf(past, f)
  {
    assert Ahead(s, f) == CountOf(past, f);
  }

  lemma FirstOf(hs: seq<Handed>, h: Handed, ws: seq<R.Write>)
    requires hs + [h] <= HandedOf(ws)
    ensures |hs| < |ws| && HandedOf(ws)[..|hs|] == hs && ws[|hs|].file == h.file && ws[|hs|].bytes == h.bytes
  {
    assert HandedOf(ws)[..|hs + [h]|] == hs + [h];
    assert HandedOf(ws)[|hs|] == (hs + [h])[|hs|];
  }

  /** What the engine writes after `past`: the next block of that file of the source. */
  lemma EngineNext(c: S.Config, s: Session, past: seq<Handed>, f: nat, bytes: seq<byte>)
    requires s.journal.Some? && s.seeds.Some? && f < |s.seeds.value| && Engine(c, s, past + [Handed(f, bytes)])
    ensures s.journal.value.fingerprint == Fingerprint(c.manifest) && S.ValidFile(c, f)
    ensures var b := s.seeds.value[f].haveBlocks + CountOf(past, f);
            0 <= b && bytes == BlockOf(c.streams[f], c.manifest.files[f].blockSize, b)
  {
    var x: E.Setup, es: seq<N.Event> :| WritesFirst(c, s, past + [Handed(f, bytes)], x, es);
    hide E.SetupOk, N.Exec, Claim, BlockOf, E.Held, E.Resuming, CountOf, S.ValidFile;
    FirstOf(past, Handed(f, bytes), N.Exec(x, es).r.out.writes);
    NextWrite(x, es, |past|);
    ClaimHeld(x, s.journal.value, s.seeds.value, f);
  }

  /** The engine's next write is the next block of the file's source. */
  lemma EngineStreams(c: S.Config, d: Disk, s: Session, past: seq<Handed>, f: nat, bytes: seq<byte>)
    requires SessionOk({}, d, s) && Tallied(s, past) && Own(c, s) && Unchanged(c)
    requires s.seeds.Some? && Engine(c, s, past + [Handed(f, bytes)])
    requires f in s.sinks && f < |s.journal.value.files|
    ensures Streamed({c.manifest.transferId}, s, f, bytes)
  {
    hide SessionOk, Tallied, Valid, BlockOf, Engine, Unchanged, CountOf, S.ValidFile;
    SinkListed(d, s, f);
    EngineNext(c, s, past, f, bytes);
    SameGeometry(s.journal.value, c.manifest, f);
    SameSource(c, f);
    AheadCounts(s, past, f);
  }

  lemma DrivenWrite(c: S.Config, s: Session, past: seq<Handed>, op: Op)
    requires Driven(c, s, past, op) && op.OpWrite? && Own(c, s)
    ensures !Idle(s) && (s.seeds.Some? ==> Engine(c, s, past + [Handed(op.f, op.bytes)]))
  {
    hide Engine;
  }

  lemma DrivenPrepare(c: S.Config, s: Session, past: seq<Handed>, op: Op)
    requires Driven(c, s, past, op) && op.OpPrepare? && Unchanged(c) && S.ConfigOk(c)
    ensures Honest({c.manifest.transferId}, s, op)
  {
    hide Engine, SafePath.ManifestOk;
    forall f | 0 <= f < |c.manifest.files| ensures |c.manifest.files[f].digest.pre| == c.manifest.files[f].size {
      SameSource(c, f);
    }
  }

  lemma OthersWrite(c: S.Config, s: Session, op: Op)
    requires op.OpWrite? && !Own(c, s)
    ensures Honest({c.manifest.transferId}, s, op)
  {
    hide BlockOf;
  }

  lemma DrivenIsHonest(c: S.Config, d: Disk, s: Session, past: seq<Handed>, op: Op)
    requires S.ConfigOk(c) && Unchanged(c) && Driven(c, s, past, op)
    requires Idle(s) || SessionOk({}, d, s)
    requires !Idle(s) && Own(c, s) ==> Tallied(s, past)
    ensures Honest({c.manifest.transferId}, s, op)
  {
    hide SessionOk, Tallied, Driven, Streamed, Unchanged, S.ConfigOk, SafePath.Validate;
    match op {
      case OpPrepare(_, _, _) => DrivenPrepare(c, s, past, op);
      case OpWrite(f, bytes, _, _, _) =>
        if Own(c, s) {
          DrivenWrite(c, s, past, op);
          if f in s.sinks && f < |s.journal.value.files| {
            SinkListed(d, s, f);
            EngineStreams(c, d, s, past, f, bytes);
          }
        } else {
          OthersWrite(c, s, op);
        }
      case _ =>
    }
  }

  // ---------------------------------------------------------------- the journal's manifest

  /** The journal of this transfer is bound to its manifest. */
  predicate Bound(d: Disk, m: Manifest) {
    m.transferId in d.journals && d.journals[m.transferId].Whole? ==> d.journals[m.transferId].j.fingerprint == Fingerprint(m)
  }

  lemma PrepareBinds(c: S.Config, root: nat, d: Disk, s: Session, past: seq<Handed>, op: Op)
    requires s.journal == None && op.OpPrepare? && Driven(c, s, past, op)
    ensures var t := Prepare(d, s, op.manifest, root, op.now, op.fault).session;
            t.journal.Some? && t.journal.value.transferId == c.manifest.transferId ==>
              t.journal.value.fingerprint == Fingerprint(c.manifest)
  {
    hide SafePath.ManifestOk, Prepare, LoadJournal, Valid, SaveJournal, Engine;
    PrepareShape(d, s, op.manifest, root, op.now, op.fault);
    var v := SafePath.Validate(op.manifest);
    if v.Some? && LoadJournal(d, v.value.transferId).Found? { FoundId(d, v.value.transferId); }
  }

  lemma FoundId(d: Disk, id: Id)
    requires LoadJournal(d, id).Found?
    ensures id in d.journals
  {}

  /** A session's first journal of this transfer is bound to its manifest. */
  lemma FirstBinds(c: S.Config, root: nat, d: Disk, s: Session, past: seq<Handed>, op: Op)
    requires !Idle(s) && s.journal == None && Driven(c, s, past, op)
    ensures var t := Perform(root, d, s, op).session;
            t.journal.Some? && t.journal.value.transferId == c.manifest.transferId ==>
              t.journal.value.fingerprint == Fingerprint(c.manifest)
  {
    hide Prepare, Negotiate, OpenPart, WriteBlock, FinishFile, Close, Driven;
    match op {
      case OpPrepare(_, _, _) => PrepareBinds(c, root, d, s, past, op);
      case OpNegotiate(m, secret, fault) => NothingToNegotiate(d, s, m, secret, fault);
      case OpWrite(f, bytes, stateful, now, fault) => WriteKeepsTerms(d, s, f, bytes, stateful, now, fault);
      case _ =>
    }
  }

  lemma CallBound(c: S.Config, root: nat, d: Disk, s: Session, past: seq<Handed>, op: Op, at: nat)
    requires DiskOk({}, d) && (Idle(s) || SessionOk({}, d, s)) && Bound(d, c.manifest) && Driven(c, s, past, op)
    requires at < |Seen(Perform(root, d, s, op).call)|
    ensures Bound(Seen(Perform(root, d, s, op).call)[at], c.manifest)
  {
    hide DiskOk, Perform, SinkOk, SeedOk, Valid, Driven;
    PerformOwn(root, d, s, op);
    var r := Perform(root, d, s, op);
    assert OwnJournalOnly(d, Seen(r.call)[at], if op.OpClose? then s.journal else None, r.session.journal);
    if Idle(s) {
      IdleKeeps(root, d, s, op);
    } else if s.journal.Some? {
      PerformAtLeast(root, d, s, op);
    } else {
      FirstBinds(c, root, d, s, past, op);
    }
  }

  lemma CrashBound(d: Disk, found: Disk, m: Manifest)
    requires DiskOk({}, d) && Bound(d, m) && Survives(d, found)
    ensures Bound(found, m)
  {
    hide Valid, NamesOk, Backed;
    if m.transferId in d.journals { assert JournalOk({}, d, m.transferId, d.journals[m.transferId]); }
  }

  lemma SameBound(d: Disk, e: Disk, m: Manifest)
    requires Bound(d, m) && e.journals.Keys <= d.journals.Keys
    requires forall id :: id in e.journals ==> e.journals[id] == d.journals[id]
    ensures Bound(e, m)
  {}

  lemma DiscardBound(d: Disk, id: Id, m: Manifest)
    requires Bound(d, m)
    ensures Bound(DiscardCall(d, id).disk, m) && Bound(DiscardCall(d, id).trace[0], m)
  {
    SameBound(d, DiscardCall(d, id).disk, m);
    SameBound(d, DiscardCall(d, id).trace[0], m);
  }

  lemma ApplyBound(c: S.Config, root: nat, h: Host, past: seq<Handed>, e: Event)
    requires HostOk({}, h) && Bound(h.disk, c.manifest) && DrivenEvent(c, h, past, e)
    ensures Bound(Apply(root, h, e).disk, c.manifest)
  {
    hide DiskOk, SessionOk, Perform, Survives, Driven, Bound, DiscardCall;
    match e {
      case Do(op) =>
        if h.session.Some? {
          var r := Perform(root, h.disk, h.session.value, op).call;
          CallBound(c, root, h.disk, h.session.value, past, op, |r.trace|);
        }
      case CrashDuring(op, at, found) =>
        if h.session.Some? {
          var seen := Seen(Perform(root, h.disk, h.session.value, op).call);
          if at < |seen| && Survives(seen[at], found) {
            CallBound(c, root, h.disk, h.session.value, past, op, at);
            PerformOk({}, root, h.disk, h.session.value, op);
            CrashBound(seen[at], found, c.manifest);
          }
        }
      case Crash(found) => if Survives(h.disk, found) { CrashBound(h.disk, found, c.manifest); }
      case Discard(id) => DiscardBound(h.disk, id, c.manifest);
      case DiscardInterrupted(id) => DiscardBound(h.disk, id, c.manifest);
      case _ =>
    }
  }

  lemma {:induction false} RunBound(c: S.Config, root: nat, start: Disk, es: seq<Event>)
    requires DiskOk({}, start) && c.manifest.transferId !in start.journals && DrivenRun(c, root, start, es)
    ensures Bound(Exec(root, start, es).disk, c.manifest)
    decreases |es|
  {
    hide DiskOk, SessionOk, Apply, DrivenEvent, Past;
    if es != [] {
      var init := es[..|es| - 1];
      RunBound(c, root, start, init);
      NoTrustNeeded(root, start, init);
      ReachableOk({}, root, start, init);
      ApplyBound(c, root, Exec(root, start, init), Past(root, start, init), es[|es| - 1]);
    }
  }

  lemma CrashPointBound(c: S.Config, root: nat, start: Disk, es: seq<Event>, op: Op, at: nat)
    requires DiskOk({}, start) && c.manifest.transferId !in start.journals && DrivenRun(c, root, start, es + [Do(op)])
    requires at < |CrashPoints(root, start, es, op)|
    ensures Bound(CrashPoints(root, start, es, op)[at], c.manifest) && DiskOk({}, CrashPoints(root, start, es, op)[at])
  {
    hide DiskOk, SessionOk, Exec, Perform, Driven, Bound, Past;
    DrivenSnoc(c, root, start, es, Do(op));
    RunBound(c, root, start, es);
    NoTrustNeeded(root, start, es);
    ReachableOk({}, root, start, es);
    var h := Exec(root, start, es);
    if h.session.Some? {
      PerformOk({}, root, h.disk, h.session.value, op);
      if at > 0 { CallBound(c, root, h.disk, h.session.value, Past(root, start, es), op, at - 1); }
    }
  }

  lemma DrivenSnoc(c: S.Config, root: nat, start: Disk, es: seq<Event>, e: Event)
    requires DrivenRun(c, root, start, es + [e])
    ensures DrivenRun(c, root, start, es) && DrivenEvent(c, Exec(root, start, es), Past(root, start, es), e)
  {
    hide DrivenEvent;
    assert (es + [e])[..|es|] == es;
  }

  // ---------------------------------------------------------------- the engine a session starts

  /** The engine a session starts: it is given the session's claim over what the disk holds. */
  function Started(c: S.Config, h: Host): E.Setup
    requires h.session.Some? && h.session.value.journal.Some? && h.session.value.seeds.Some?
  {
    var s := h.session.value;
    E.Setup(c, Some(Claim(s.journal.value, s.seeds.value)), Persisted(h.disk, s.journal.value))
  }

  /** Every run of the engine that a negotiated session starts drives that session. */
  lemma StartedEngineDrives(c: S.Config, root: nat, start: Disk, es: seq<Event>, run: seq<N.Event>, hs: seq<Handed>)
    requires DiskOk({}, start) && S.ConfigOk(c) && SafePath.Validate(c.manifest) == Some(c.manifest)
    requires var h := Exec(root, start, es);
             && h.session.Some? && !Idle(h.session.value) && Own(c, h.session.value)
             && h.session.value.seeds.Some? && h.session.value.sinks == map[]
             && Fingerprint(c.manifest) == h.session.value.journal.value.fingerprint
             && c.manifest.files == Entries(h.session.value.journal.value.files)
    ensures var h := Exec(root, start, es);
            && E.SetupOk(Started(c, h))
            && (hs <= HandedOf(N.Exec(Started(c, h), run).r.out.writes) ==> Engine(c, h.session.value, hs))
  {
    hide DiskOk, Exec, N.Exec, S.ConfigOk, SafePath.ManifestOk, Claim, Persisted, SessionOk, R.SeedOk, E.HostHonest;
    var h := Exec(root, start, es);
    var x := Started(c, h);
    forall f | 0 <= f < E.Count(x) ensures E.HostHonest(x, f) { SeedsAreHonest(root, start, es, c, f); }
    NoTrustNeeded(root, start, es);
    ReachableOk({}, root, start, es);
    StartedResumes(c, h);
    if hs <= HandedOf(N.Exec(x, run).r.out.writes) { assert WritesFirst(c, h.session.value, hs, x, run); }
  }

  lemma StartedResumes(c: S.Config, h: Host)
    requires HostOk({}, h) && h.session.Some? && !Idle(h.session.value) && h.session.value.journal.Some?
    requires h.session.value.seeds.Some? && h.session.value.sinks == map[]
    requires Fingerprint(c.manifest) == h.session.value.journal.value.fingerprint
    requires c.manifest.files == Entries(h.session.value.journal.value.files)
    ensures E.Resuming(Started(c, h))
  {
    hide DiskOk, R.SeedOk, SeedOk, SinkOk, FileStateOk, Persisted;
    var s := h.session.value;
    var j := s.journal.value;
    SessionJournal({}, h.disk, s);
    ValidIds(j, c.manifest);
    forall g | 0 <= g < |j.files| ensures s.seeds.value[g].haveBlocks == j.files[g].committed {
      SeedHave(h.disk, j, g, s.seeds.value[g]);
    }
    ClaimAccepted(j, s.seeds.value, c.manifest);
  }

  // ---------------------------------------------------------------- main results

  lemma EventIsHonest(c: S.Config, root: nat, start: Disk, es: seq<Event>, e: Event)
    requires DiskOk({}, start) && S.ConfigOk(c) && Unchanged(c) && DrivenRun(c, root, start, es)
    requires DrivenEvent(c, Exec(root, start, es), Past(root, start, es), e)
    ensures HonestEvent({c.manifest.transferId}, Exec(root, start, es), e)
  {
    hide DiskOk, SessionOk, Tallied, Driven, Exec, Past, Honest, DrivenRun, Unchanged, S.ConfigOk;
    var h := Exec(root, start, es);
    RunTallied(c, root, start, es);
    NoTrustNeeded(root, start, es);
    ReachableOk({}, root, start, es);
    if h.session.Some? && (e.Do? || e.CrashDuring?) {
      DrivenIsHonest(c, h.disk, h.session.value, Past(root, start, es), e.op);
    }
  }

  /** Every write the engine drives is honest: the destination's assumption about senders is
      met by the two engines of a transfer with an unchanged source, over all its sessions. */
  lemma {:induction false} EngineIsHonest(c: S.Config, root: nat, start: Disk, es: seq<Event>)
    requires DiskOk({}, start) && S.ConfigOk(c) && Unchanged(c) && DrivenRun(c, root, start, es)
    ensures HonestRun({c.manifest.transferId}, root, start, es)
    decreases |es|
  {
    hide DiskOk, Exec, Past, HonestEvent, DrivenEvent, Unchanged, S.ConfigOk;
    if es != [] {
      EngineIsHonest(c, root, start, es[..|es| - 1]);
      EventIsHonest(c, root, start, es[..|es| - 1], es[|es| - 1]);
    }
  }

  /** From a store without this transfer, through any sessions the engine drives, interrupted
      anywhere: at every crash point of the next call, what the journal of the transfer claims
      of a file is in its partial, and is the beginning of what the sender streams. */
  lemma DurableStateIsSource(c: S.Config, root: nat, start: Disk, es: seq<Event>, op: Op, at: nat, f: nat)
    requires DiskOk({}, start) && c.manifest.transferId !in start.journals
    requires S.ConfigOk(c) && Unchanged(c) && DrivenRun(c, root, start, es + [Do(op)])
    requires at < |CrashPoints(root, start, es, op)|
    ensures var d, id := CrashPoints(root, start, es, op)[at], c.manifest.transferId;
            id in d.journals && d.journals[id].Whole? && f < |d.journals[id].j.files| ==>
              var s := d.journals[id].j.files[f];
              && f < |c.streams|
              && (s.committed > 0 && PartOf(d, id, f).Some? ==>
                    && 0 <= CommittedBytes(s) <= |PartOf(d, id, f).value.data|
                    && PartOf(d, id, f).value.data[..CommittedBytes(s)] <= c.streams[f])
  {
    hide DrivenRun, HonestRun, Exec, Unchanged, S.ConfigOk, CrashPoints, CommittedBytes, Honest, DiskOk, JournalOk,
      Valid, Bound;
    var id, d := c.manifest.transferId, CrashPoints(root, start, es, op)[at];
    EngineIsHonest(c, root, start, es + [Do(op)]);
    HonestSnoc({id}, root, start, es, Do(op));
    WithoutTransfer(id, start);
    DurablePrefixIsSource({id}, root, start, es, op, at, id, f);
    CrashPointBound(c, root, start, es, op, at);
    if id in d.journals && d.journals[id].Whole? && f < |d.journals[id].j.files| { JournalSource(c, d, f); }
  }

  lemma JournalSource(c: S.Config, d: Disk, f: nat)
    requires DiskOk({}, d) && Bound(d, c.manifest) && S.ConfigOk(c) && Unchanged(c)
    requires var id := c.manifest.transferId;
             id in d.journals && d.journals[id].Whole? && f < |d.journals[id].j.files|
    ensures f < |c.streams| && d.journals[c.manifest.transferId].j.files[f].entry.digest.pre == c.streams[f]
  {
    hide Valid, NamesOk, Backed;
    var id := c.manifest.transferId;
    assert JournalOk({}, d, id, d.journals[id]);
    SameGeometry(d.journals[id].j, c.manifest, f);
    SameSource(c, f);
  }

  lemma HonestSnoc(q: set<Id>, root: nat, start: Disk, es: seq<Event>, e: Event)
    requires HonestRun(q, root, start, es + [e])
    ensures HonestRun(q, root, start, es) && HonestEvent(q, Exec(root, start, es), e)
  {
    assert (es + [e])[..|es|] == es;
  }

  lemma WithoutTransfer(id: Id, d: Disk)
    requires DiskOk({}, d) && id !in d.journals
    ensures DiskOk({id}, d)
  {
    hide Valid, NamesOk, CommittedBytes;
    forall k | k in d.journals ensures JournalOk({id}, d, k, d.journals[k]) {
      assert JournalOk({}, d, k, d.journals[k]);
      forall f | 0 <= f < |d.journals[k].j.files| ensures Backed({id}, d, k, f, d.journals[k].j.files[f]) {
        assert Backed({}, d, k, f, d.journals[k].j.files[f]);
      }
    }
  }
}
