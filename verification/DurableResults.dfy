/** What durable receives guarantee over every sequence of sessions, faults, aborts, crashes
    and discards on one store. */
module DurableResults {
  import opened Wire
  import opened Geometry
  import opened Journals
  import opened Storage
  import opened Durable
  import opened DurableSafety
  import SafePath

  // ---------------------------------------------------------------- claims and checkpoints

  /** Every disk a crash could find in the middle of the next call after a run. */
  function CrashPoints(root: nat, start: Disk, es: seq<Event>, op: Op): seq<Disk> {
    var h := Exec(root, start, es);
    if h.session == None then [h.disk] else [h.disk] + Seen(Perform(root, h.disk, h.session.value, op).call)
  }

  /** At every crash point of every run a journal on disk is whole and valid, each file it
      claims progress for has that much synced data in its partial or has been promoted, and
      a digest checkpoint is the digest of exactly that prefix. */
  lemma JournalNeverAheadOfData(root: nat, start: Disk, es: seq<Event>, op: Op, at: nat, id: Id, f: nat)
    requires DiskOk({}, start) && at < |CrashPoints(root, start, es, op)|
    requires var d := CrashPoints(root, start, es, op)[at]; id in d.journals
    ensures var d := CrashPoints(root, start, es, op)[at];
            && d.journals[id].Whole? && Valid(d.journals[id].j)
            && (f < |d.journals[id].j.files| ==> Backed({}, d, id, f, d.journals[id].j.files[f]))
  {
    hide Exec, Perform, Backed, Valid;
    NoTrustNeeded(root, start, es);
    ReachableOk({}, root, start, es);
    var h := Exec(root, start, es);
    if h.session.Some? { PerformOk({}, root, h.disk, h.session.value, op); }
    var d := CrashPoints(root, start, es, op)[at];
    assert DiskOk({}, d);
    assert JournalOk({}, d, id, d.journals[id]);
  }

  /** Restoring a stored digest and hashing the persisted prefix again give the same seed. */
  lemma RestoreEqualsRehash(root: nat, start: Disk, es: seq<Event>, id: Id, f: nat)
    requires DiskOk({}, start)
    ensures var d := Exec(root, start, es).disk;
            id in d.journals && d.journals[id].Whole? && f < |d.journals[id].j.files| ==>
              var s := d.journals[id].j.files[f];
              SeedFor(d, id, f, s) == SeedFor(d, id, f, s.(checkpoint := None))
  {
    hide Exec, CommittedBytes, Blocks, SafePath.Validate;
    NoTrustNeeded(root, start, es);
    ReachableOk({}, root, start, es);
    var d := Exec(root, start, es).disk;
    if id in d.journals && d.journals[id].Whole? && f < |d.journals[id].j.files| {
      var s := d.journals[id].j.files[f];
      assert JournalOk({}, d, id, d.journals[id]) && FileStateOk(s, f, d.journals[id].j.files[0].entry.blockSize);
      assert Backed({}, d, id, f, s);
      assert CommittedBytes(s) == CommittedBytes(s.(checkpoint := None)) by { SameBytes(s); }
    }
  }

  lemma SameBytes(s: FileState)
    ensures CommittedBytes(s) == CommittedBytes(s.(checkpoint := None))
  {}

  // ---------------------------------------------------------------- authorization

  predicate Advertises(s: Session) {
    s.seeds.Some? && exists f :: 0 <= f < |s.seeds.value| && s.seeds.value[f].haveBlocks > 0
  }

  /** Progress is adopted and advertised only in a session that authenticated this transfer. */
  predicate Gated(s: Session) {
    && (s.resumed ==> s.journal.Some? && AuthorizedFor(s, s.journal.value.transferId, s.journal.value.transferId))
    && (Advertises(s) ==> s.journal.Some? && AuthorizedFor(s, s.journal.value.transferId, s.journal.value.transferId))
  }

  lemma {:induction false} SeedsHave(d: Disk, j: Journal, n: nat)
    requires n <= |j.files| && SeedsFor(d, j, n).Some?
    ensures |SeedsFor(d, j, n).value| == n
    ensures forall f :: 0 <= f < n ==> SeedsFor(d, j, n).value[f].haveBlocks == j.files[f].committed
  {
    hide CommittedBytes;
    if n > 0 { SeedsHave(d, j, n - 1); }
  }

  lemma GatedSame(s: Session, t: Session)
    requires Gated(s) && KeepsTerms(s, t)
    ensures Gated(t)
  {}

  lemma NegotiateGated(d: Disk, s: Session, raw: Manifest, secret: nat, fault: JournalFault)
    requires Gated(s)
    ensures Gated(Negotiate(d, s, raw, secret, fault).session)
  {
    hide SafePath.Validate, AttachSecret, SeedsFor;
    GatedSame(s, Stop(s));
    if SafePath.Validate(raw).Some? {
      var m := SafePath.Validate(raw).value;
      if ResumeStateFor(d, s, m).Some? {
        var j := s.journal.value;
        SeedsHave(d, j, |j.files|);
        var s1 := s.(seeds := ResumeStateFor(d, s, m));
        assert Advertises(s1) ==> HasProgress(j);
        GatedSame(s1, AttachSecret(d, s1, m, secret, fault).session);
      }
    }
  }

  /** Prepare refuses, creates a missing journal, or adopts a usable one. */
  lemma PrepareShape(d: Disk, s: Session, raw: Manifest, root: nat, now: int, fault: JournalFault)
    ensures var r, v := Prepare(d, s, raw, root, now, fault), SafePath.Validate(raw);
            || (r.call == Refuse(d) && KeepsTerms(s, r.session))
            || (v.Some? && !s.flags.prepared && LoadJournal(d, v.value.transferId) == Missing
                && r == CreateJournal(d, s.(flags := s.flags.(prepared := true)), v.value, root, now, fault))
            || (v.Some? && !s.flags.prepared && LoadJournal(d, v.value.transferId).Found?
                && r == AdoptJournal(d, s.(flags := s.flags.(prepared := true)), v.value, root,
                                     LoadJournal(d, v.value.transferId).j))
  {
    hide SafePath.Validate, LoadJournal, CreateJournal, AdoptJournal;
  }

  lemma LoadedIsWhole(d: Disk, id: Id)
    requires DiskOk({}, d) && LoadJournal(d, id).Found?
    ensures var j := LoadJournal(d, id).j; j.transferId == id && id in d.journals && d.journals[id] == Whole(j)
  {
    hide Valid, NamesOk, Backed;
    assert JournalOk({}, d, id, d.journals[id]);
  }

  lemma CreateSession(d: Disk, s: Session, m: Manifest, root: nat, now: int, fault: JournalFault)
    requires s.journal == None
    ensures var t := CreateJournal(d, s, m, root, now, fault).session;
            && t.resumed == s.resumed && t.seeds == s.seeds
            && (t.journal.Some? ==> t.journal.value.transferId == m.transferId)
  {
    hide New, SaveJournal;
  }

  lemma AdoptSession(d: Disk, s: Session, m: Manifest, root: nat, j: Journal)
    requires s.journal == None
    ensures var t := AdoptJournal(d, s, m, root, j).session;
            && t.seeds == s.seeds && t.gate.selected == s.gate.selected && t.gate.authorized == s.gate.authorized
            && (t.journal.Some? ==> t.journal.value == j && AuthorizedFor(t, j.transferId, j.transferId))
            && (t.resumed ==> s.resumed || t.journal.Some?)
  {}

  lemma PrepareGated(d: Disk, s: Session, raw: Manifest, root: nat, now: int, fault: JournalFault)
    requires DiskOk({}, d) && Gated(s) && !s.resumed && s.journal == None && s.seeds == None
    ensures Gated(Prepare(d, s, raw, root, now, fault).session)
  {
    hide DiskOk, SafePath.Validate, Prepare, CreateJournal, AdoptJournal, LoadJournal, KeepsTerms;
    PrepareShape(d, s, raw, root, now, fault);
    var r, v, s1 := Prepare(d, s, raw, root, now, fault), SafePath.Validate(raw), s.(flags := s.flags.(prepared := true));
    if r.call == Refuse(d) && KeepsTerms(s, r.session) {
      GatedSame(s, r.session);
    } else if LoadJournal(d, v.value.transferId) == Missing {
      CreateSession(d, s1, v.value, root, now, fault);
    } else {
      AdoptSession(d, s1, v.value, root, LoadJournal(d, v.value.transferId).j);
    }
  }

  lemma PerformGated(root: nat, d: Disk, s: Session, op: Op)
    requires DiskOk({}, d) && Gated(s) && (Idle(s) || SessionOk({}, d, s))
    ensures Gated(Perform(root, d, s, op).session)
  {
    hide DiskOk, Prepare, Negotiate, OpenPart, WriteBlock, FinishFile, Close, SessionOk, Gated, KeepsTerms;
    if !Idle(s) {
      match op {
        case OpPrepare(m, now, fault) =>
          if s.flags.prepared { PreparedTwice(d, s, m, root, now, fault); StopKeeps(s); GatedSame(s, Stop(s)); }
          else { Unprepared({}, d, s); NotResumed(s); PrepareGated(d, s, m, root, now, fault); }
        case OpNegotiate(m, secret, fault) => NegotiateGated(d, s, m, secret, fault);
        case OpWrite(f, bytes, stateful, now, fault) =>
          WriteKeepsTerms(d, s, f, bytes, stateful, now, fault);
          GatedSame(s, Perform(root, d, s, op).session);
        case _ => GatedSame(s, Perform(root, d, s, op).session);
      }
    }
  }

  lemma CommitKeepsTerms(d: Disk, s: Session, f: nat, bytes: seq<byte>, stateful: bool, now: int, fault: WriteFault)
    requires f in s.sinks && s.journal.Some?
    ensures KeepsTerms(s, CommitBlock(d, s, f, bytes, stateful, now, fault).session)
    ensures CommitBlock(d, s, f, bytes, stateful, now, fault).session.journal.value.secret == s.journal.value.secret
  {
    hide SaveJournal, Record;
  }

  lemma WriteKeepsTerms(d: Disk, s: Session, f: nat, bytes: seq<byte>, stateful: bool, now: int, fault: WriteFault)
    ensures KeepsTerms(s, WriteBlock(d, s, f, bytes, stateful, now, fault).session)
  {
    hide CommitBlock, WriteAt, Sync, BlockLength, KeepsTerms, SetFile, Then;
    StopKeeps(s);
    if f in s.sinks && s.journal.Some? {
      forall e: Disk ensures KeepsTerms(s, CommitBlock(e, s, f, bytes, stateful, now, fault).session) {
        CommitKeepsTerms(e, s, f, bytes, stateful, now, fault);
      }
    }
  }

  lemma StopKeeps(s: Session)
    ensures KeepsTerms(s, Stop(s))
  {}

  lemma NotResumed(s: Session)
    requires Gated(s) && s.journal == None
    ensures !s.resumed
  {}

  lemma PreparedTwice(d: Disk, s: Session, m: Manifest, root: nat, now: int, fault: JournalFault)
    requires s.flags.prepared
    ensures Prepare(d, s, m, root, now, fault).session == Stop(s)
  {
    hide SafePath.Validate;
  }

  lemma ApplyGated(root: nat, h: Host, e: Event)
    requires HostOk({}, h) && (h.session.Some? ==> Gated(h.session.value))
    ensures Apply(root, h, e).session.Some? ==> Gated(Apply(root, h, e).session.value)
  {
    hide DiskOk, SessionOk, Perform, Survives, DiscardCall;
    if e.Do? && h.session.Some? { PerformGated(root, h.disk, h.session.value, e.op); }
  }

  /** In every run, a session that adopted a journal or advertises any committed block has
      authenticated a resume for exactly that transfer. */
  lemma {:induction false} ProgressNeedsAuthorization(root: nat, start: Disk, es: seq<Event>)
    requires DiskOk({}, start)
    ensures var h := Exec(root, start, es); h.session.Some? ==> Gated(h.session.value)
    decreases |es|
  {
    hide DiskOk, Apply, Gated, HostOk;
    if es != [] {
      ProgressNeedsAuthorization(root, start, es[..|es| - 1]);
      NoTrustNeeded(root, start, es[..|es| - 1]);
      ReachableOk({}, root, start, es[..|es| - 1]);
      ApplyGated(root, Exec(root, start, es[..|es| - 1]), es[|es| - 1]);
    }
  }

  // ---------------------------------------------------------------- the stored credential

  /** A call leaves the journals alone, replaces the session's own, or drops it. */
  predicate OwnJournalOnly(d: Disk, e: Disk, was: Option<Journal>, now: Option<Journal>) {
    || e.journals == d.journals
    || (now.Some? && e.journals == d.journals[now.value.transferId := Whole(now.value)])
    || (was.Some? && e.journals == d.journals - {was.value.transferId})
  }

  predicate AllOwn(d: Disk, c: Call, was: Option<Journal>, now: Option<Journal>) {
    forall i :: 0 <= i < |Seen(c)| ==> OwnJournalOnly(d, Seen(c)[i], was, now)
  }

  lemma OneOwn(d: Disk, e: Disk, ok: bool, was: Option<Journal>, now: Option<Journal>)
    requires e.journals == d.journals
    ensures AllOwn(d, Call([], e, ok), was, now)
  {}

  lemma SaveOwn(d: Disk, e: Disk, j: Journal, fault: JournalFault, was: Option<Journal>)
    requires e.journals == d.journals
    ensures AllOwn(d, SaveJournal(e, j, fault), was, Some(j))
  {
    hide Valid;
  }

  lemma ThenOwn(d: Disk, e: Disk, c: Call, was: Option<Journal>, now: Option<Journal>)
    requires e.journals == d.journals && AllOwn(d, c, was, now)
    ensures AllOwn(d, Then(Call([], e, true), c), was, now)
  {
    hide OwnJournalOnly;
    SeenThen(Call([], e, true), c);
    assert OwnJournalOnly(d, e, was, now) by { OneOwn(d, e, true, was, now); assert Seen(Call([], e, true))[0] == e; }
  }

  lemma PromoteKeepsJournals(d: Disk, key: Key, name: seq<byte>, mode: PromoteMode)
    ensures var p := Promote(d, key, name, mode);
            forall i :: 0 <= i < |Seen(p)| ==> Seen(p)[i].journals == d.journals
  {}

  lemma LastSeen(c: Call)
    ensures Seen(c) != [] && c.disk == Seen(c)[|Seen(c)| - 1]
  {}

  lemma {:induction false} PromoteOwn(d: Disk, j: Journal, n: nat, modes: seq<PromoteMode>)
    requires n <= |j.files|
    ensures var c := PromoteAll(d, j, n, modes);
            c.disk.journals == d.journals && (forall i :: 0 <= i < |Seen(c)| ==> Seen(c)[i].journals == d.journals)
  {
    hide Promote, Then;
    if n > 0 {
      PromoteOwn(d, j, n - 1, modes);
      var before := PromoteAll(d, j, n - 1, modes);
      if before.ok {
        var p := Promote(before.disk, Key(j.transferId, n - 1), j.files[n - 1].entry.name, ModeAt(modes, n - 1));
        PromoteKeepsJournals(before.disk, Key(j.transferId, n - 1), j.files[n - 1].entry.name, ModeAt(modes, n - 1));
        SeenThen(before, p);
        assert Then(before, p).disk == Seen(Then(before, p))[|Seen(Then(before, p))| - 1] by { LastSeen(Then(before, p)); }
      }
    }
  }

  lemma CloseOwn(d: Disk, s: Session, modes: seq<PromoteMode>)
    ensures AllOwn(d, Close(d, s, modes).call, s.journal, Close(d, s, modes).session.journal)
  {
    hide PromoteAll, AllFinished;
    if !s.flags.closed && AllFinished(s) {
      assert s.journal.Some? by { Finished(s); }
      var j := s.journal.value;
      PromoteOwn(d, j, |j.files|, modes);
      var p := PromoteAll(d, j, |j.files|, modes);
      SeenThen(p, DiscardCall(p.disk, j.transferId));
    }
  }

  lemma Finished(s: Session)
    requires AllFinished(s)
    ensures s.journal.Some?
  {}

  lemma CommitShape(e: Disk, s: Session, f: nat, bytes: seq<byte>, stateful: bool, now: int, fault: WriteFault)
    requires f in s.sinks && s.journal.Some?
    ensures var r := CommitBlock(e, s, f, bytes, stateful, now, fault);
            || r.call == Refuse(e)
            || (&& r.session.journal.Some?
                && r.call == SaveJournal(e, r.session.journal.value, if fault.JournalFails? then fault.at else NoFault))
  {
    hide SaveJournal, Record;
  }

  lemma CommitOwn(d: Disk, e: Disk, s: Session, f: nat, bytes: seq<byte>, stateful: bool, now: int, fault: WriteFault)
    requires f in s.sinks && s.journal.Some? && e.journals == d.journals
    ensures var r := CommitBlock(e, s, f, bytes, stateful, now, fault);
            AllOwn(d, r.call, None, r.session.journal)
  {
    hide CommitBlock, SaveJournal, AllOwn;
    CommitShape(e, s, f, bytes, stateful, now, fault);
    var r := CommitBlock(e, s, f, bytes, stateful, now, fault);
    OneOwn(d, e, false, None, r.session.journal);
    if r.session.journal.Some? {
      SaveOwn(d, e, r.session.journal.value, if fault.JournalFails? then fault.at else NoFault, None);
    }
  }

  /** A block write stops with one more file change at most, or goes on to the checkpoint. */
  lemma WriteShape(d: Disk, s: Session, f: nat, bytes: seq<byte>, stateful: bool, now: int, fault: WriteFault)
    ensures var r := WriteBlock(d, s, f, bytes, stateful, now, fault);
            || (r.session.journal == s.journal && exists e: Disk :: e.journals == d.journals && r.call == Call([], e, false))
            || (f in s.sinks && s.journal.Some? && exists a: Disk, b: Disk ::
                  && a.journals == d.journals && b.journals == d.journals
                  && var c := CommitBlock(b, s, f, bytes, stateful, now, fault);
                     r.session == c.session && r.call == Then(Call([], a, true), Then(Call([], b, true), c.call)))
  {
    hide CommitBlock, WriteAt, Sync, BlockLength, Then;
  }

  lemma WriteOwn(d: Disk, s: Session, f: nat, bytes: seq<byte>, stateful: bool, now: int, fault: WriteFault)
    ensures var r := WriteBlock(d, s, f, bytes, stateful, now, fault);
            AllOwn(d, r.call, None, r.session.journal)
  {
    hide WriteBlock, CommitBlock, AllOwn, Then;
    WriteShape(d, s, f, bytes, stateful, now, fault);
    var r := WriteBlock(d, s, f, bytes, stateful, now, fault);
    if e: Disk :| e.journals == d.journals && r.call == Call([], e, false) && r.session.journal == s.journal {
      OneOwn(d, e, false, None, s.journal);
    } else {
      var a: Disk, b: Disk :|
        && a.journals == d.journals && b.journals == d.journals
        && var c := CommitBlock(b, s, f, bytes, stateful, now, fault);
           r.session == c.session && r.call == Then(Call([], a, true), Then(Call([], b, true), c.call));
      var c := CommitBlock(b, s, f, bytes, stateful, now, fault);
      CommitOwn(d, b, s, f, bytes, stateful, now, fault);
      ThenOwn(d, b, c.call, None, c.session.journal);
      ThenOwn(d, a, Then(Call([], b, true), c.call), None, c.session.journal);
    }
  }

  lemma AttachOwn(d: Disk, s: Session, m: Manifest, secret: nat, fault: JournalFault)
    ensures var r := AttachSecret(d, s, m, secret, fault);
            AllOwn(d, r.call, None, r.session.journal)
  {
    hide SaveJournal, AllOwn;
    OneOwn(d, d, false, None, s.journal);
    OneOwn(d, d, true, None, s.journal);
    if s.journal.Some? { SaveOwn(d, d, s.journal.value.(secret := Some(secret)), fault, None); }
  }

  lemma CreateOwn(d: Disk, s: Session, m: Manifest, root: nat, now: int, fault: JournalFault)
    ensures var r := CreateJournal(d, s, m, root, now, fault);
            AllOwn(d, r.call, None, r.session.journal)
  {
    hide SaveJournal, New, AllOwn;
    OneOwn(d, d, false, None, s.journal);
    if New(m, root, now).Some? { SaveOwn(d, d, New(m, root, now).value, fault, None); }
  }

  lemma AdoptOwn(d: Disk, s: Session, m: Manifest, root: nat, j: Journal)
    ensures var r := AdoptJournal(d, s, m, root, j);
            AllOwn(d, r.call, None, r.session.journal) && r.call.disk == d
  {
    hide AllOwn, AuthorizedFor;
    OneOwn(d, d, false, None, s.journal);
    OneOwn(d, d, true, None, Some(j));
  }

  lemma PrepareOwn(d: Disk, s: Session, raw: Manifest, root: nat, now: int, fault: JournalFault)
    ensures var r := Prepare(d, s, raw, root, now, fault);
            AllOwn(d, r.call, None, r.session.journal)
  {
    hide SafePath.Validate, Prepare, CreateJournal, AdoptJournal, LoadJournal, AllOwn, KeepsTerms;
    PrepareShape(d, s, raw, root, now, fault);
    var r, v, s1 := Prepare(d, s, raw, root, now, fault), SafePath.Validate(raw), s.(flags := s.flags.(prepared := true));
    if r.call == Refuse(d) {
      OneOwn(d, d, false, None, r.session.journal);
    } else if LoadJournal(d, v.value.transferId) == Missing {
      CreateOwn(d, s1, v.value, root, now, fault);
    } else {
      AdoptOwn(d, s1, v.value, root, LoadJournal(d, v.value.transferId).j);
    }
  }

  lemma PerformOwn(root: nat, d: Disk, s: Session, op: Op)
    ensures var r := Perform(root, d, s, op);
            AllOwn(d, r.call, if op.OpClose? then s.journal else None, r.session.journal)
  {
    hide SafePath.Validate, Prepare, AttachSecret, ResumeStateFor, WriteBlock, Close, Truncate, Sync, CommittedBytes,
      AllOwn, AddSink;
    OneOwn(d, d, false, None, s.journal);
    OneOwn(d, d, false, s.journal, s.journal);
    match op {
      case OpPrepare(m, now, fault) => PrepareOwn(d, s, m, root, now, fault);
      case OpNegotiate(raw, secret, fault) =>
        if SafePath.Validate(raw).Some? && ResumeStateFor(d, s, SafePath.Validate(raw).value).Some? {
          var m := SafePath.Validate(raw).value;
          AttachOwn(d, s.(seeds := ResumeStateFor(d, s, m)), m, secret, fault);
        }
      case OpOpen(f) => OneOwn(d, OpenPart(d, s, f).call.disk, true, None, s.journal); OpenJournal(d, s, f);
      case OpFinish(f, syncOk) => OneOwn(d, FinishFile(d, s, f, syncOk).call.disk, true, None, s.journal);
      case OpWrite(f, bytes, stateful, now, fault) => WriteOwn(d, s, f, bytes, stateful, now, fault);
      case OpClose(modes) => CloseOwn(d, s, modes);
    }
  }

  lemma OpenJournal(d: Disk, s: Session, f: nat)
    ensures OpenPart(d, s, f).session.journal == s.journal
  {
    hide Truncate, CommittedBytes;
  }

  /** What may happen to the credential of journal `id` between two disks of one session. */
  predicate SecretKept(d: Disk, e: Disk, id: Id, own: bool) {
    id in d.journals && id in e.journals && d.journals[id].Whole? && e.journals[id].Whole? ==>
      var a, b := d.journals[id].j.secret, e.journals[id].j.secret;
      b == a || (a == None && own)
  }

  predicate FreshFor(s: Session, id: Id) { !s.resumed && s.journal.Some? && s.journal.value.transferId == id }

  lemma NegotiateSecret(d: Disk, s: Session, raw: Manifest, secret: nat, fault: JournalFault)
    requires s.journal.Some?
    ensures var t := Negotiate(d, s, raw, secret, fault).session;
            && t.journal.Some? && t.journal.value.transferId == s.journal.value.transferId
            && (t.journal.value.secret == s.journal.value.secret || (s.journal.value.secret == None && !s.resumed))
  {
    hide SafePath.Validate, AttachSecret, ResumeStateFor, KeepsTerms;
    StopKeeps(s);
    TermsSecret(s, Stop(s));
    if SafePath.Validate(raw).Some? && ResumeStateFor(d, s, SafePath.Validate(raw).value).Some? {
      var m := SafePath.Validate(raw).value;
      var s1 := s.(seeds := ResumeStateFor(d, s, m));
      TermsSecret(s1, AttachSecret(d, s1, m, secret, fault).session);
    }
  }

  lemma TermsSecret(s: Session, t: Session)
    requires KeepsTerms(s, t) && s.journal.Some?
    ensures t.journal.Some? && t.journal.value.transferId == s.journal.value.transferId
    ensures t.journal.value.secret == s.journal.value.secret || (s.journal.value.secret == None && !s.resumed)
  {}

  /** The journal a running session leaves is its old one as far as the credential goes. */
  lemma PerformSecret(root: nat, d: Disk, s: Session, op: Op)
    requires SessionOk({}, d, s) && !Idle(s) && s.journal.Some?
    ensures var t := Perform(root, d, s, op).session;
            && t.journal.Some? && t.journal.value.transferId == s.journal.value.transferId
            && (t.journal.value.secret == s.journal.value.secret || (s.journal.value.secret == None && !s.resumed))
  {
    hide Prepare, Negotiate, OpenPart, WriteBlock, FinishFile, Close, SinkOk, SeedOk, Valid;
    match op {
      case OpPrepare(m, now, fault) => PreparedTwice(d, s, m, root, now, fault);
      case OpNegotiate(m, secret, fault) => NegotiateSecret(d, s, m, secret, fault);
      case OpWrite(f, bytes, stateful, now, fault) => WriteKeepsTerms(d, s, f, bytes, stateful, now, fault);
      case _ =>
    }
  }

  /** Only a missing journal is created. */
  lemma PrepareSecret(d: Disk, s: Session, raw: Manifest, root: nat, now: int, fault: JournalFault)
    requires DiskOk({}, d) && s.journal == None
    ensures var t := Prepare(d, s, raw, root, now, fault).session;
            t.journal.Some? ==>
              t.journal.value.transferId !in d.journals || d.journals[t.journal.value.transferId] == Whole(t.journal.value)
  {
    hide DiskOk, SafePath.Validate, Prepare, CreateJournal, AdoptJournal;
    PrepareShape(d, s, raw, root, now, fault);
    var r, v, s1 := Prepare(d, s, raw, root, now, fault), SafePath.Validate(raw), s.(flags := s.flags.(prepared := true));
    if r.session.journal.Some? {
      if LoadJournal(d, v.value.transferId) == Missing {
        CreateSession(d, s1, v.value, root, now, fault);
      } else {
        LoadedIsWhole(d, v.value.transferId);
        AdoptSession(d, s1, v.value, root, LoadJournal(d, v.value.transferId).j);
      }
    }
  }

  lemma UnjournaledKeeps(root: nat, d: Disk, s: Session, op: Op)
    requires DiskOk({}, d) && SessionOk({}, d, s) && !Idle(s) && s.journal == None
    ensures var t := Perform(root, d, s, op).session;
            t.journal.Some? ==>
              t.journal.value.transferId !in d.journals || d.journals[t.journal.value.transferId] == Whole(t.journal.value)
  {
    hide DiskOk, Prepare, Negotiate, OpenPart, WriteBlock, FinishFile, Close, SinkOk, SeedOk, Valid;
    match op {
      case OpPrepare(m, now, fault) => PrepareSecret(d, s, m, root, now, fault);
      case OpNegotiate(m, secret, fault) => NothingToNegotiate(d, s, m, secret, fault);
      case OpWrite(f, bytes, stateful, now, fault) => WriteKeepsTerms(d, s, f, bytes, stateful, now, fault);
      case _ =>
    }
  }

  lemma NothingToNegotiate(d: Disk, s: Session, raw: Manifest, secret: nat, fault: JournalFault)
    requires s.journal == None
    ensures Negotiate(d, s, raw, secret, fault).session.journal == None
  {
    hide SafePath.Validate;
  }

  lemma IdleKeeps(root: nat, d: Disk, s: Session, op: Op)
    requires Idle(s)
    ensures Perform(root, d, s, op) == Result(Refuse(d), s)
  {}

  /** At every crash point of a call each stored credential is what it was, unless the call
      attaches one to a journal this very session created. */
  lemma CallKeepsSecrets(root: nat, d: Disk, s: Session, op: Op, at: nat, id: Id)
    requires DiskOk({}, d) && (Idle(s) || SessionOk({}, d, s))
    requires at < |Seen(Perform(root, d, s, op).call)|
    ensures SecretKept(d, Seen(Perform(root, d, s, op).call)[at], id, FreshFor(s, id))
  {
    hide DiskOk, Perform, SinkOk, SeedOk, Valid;
    PerformOwn(root, d, s, op);
    var r := Perform(root, d, s, op);
    assert OwnJournalOnly(d, Seen(r.call)[at], if op.OpClose? then s.journal else None, r.session.journal);
    if Idle(s) {
      IdleKeeps(root, d, s, op);
    } else if s.journal.Some? {
      PerformSecret(root, d, s, op);
    } else {
      UnjournaledKeeps(root, d, s, op);
    }
  }

  lemma CrashKeepsSecrets(d: Disk, e: Disk, f: Disk, id: Id, own: bool)
    requires SecretKept(d, e, id, own) && DiskOk({}, e) && Survives(e, f)
    ensures SecretKept(d, f, id, own)
  {
    hide Valid, NamesOk, Backed;
    if id in e.journals { assert JournalOk({}, e, id, e.journals[id]); }
  }

  /** Over every run: no event changes a stored resume credential, and a journal without one
      gains one only in the session that created it. */
  lemma SecretNeverChanges(root: nat, start: Disk, es: seq<Event>, e: Event, id: Id)
    requires DiskOk({}, start)
    ensures var h := Exec(root, start, es);
            SecretKept(h.disk, Apply(root, h, e).disk, id, h.session.Some? && FreshFor(h.session.value, id))
  {
    hide Exec, DiskOk, Perform, Survives, SecretKept, SessionOk, DiscardCall;
    NoTrustNeeded(root, start, es);
    ReachableOk({}, root, start, es);
    var h := Exec(root, start, es);
    var own := h.session.Some? && FreshFor(h.session.value, id);
    SameSecrets(h.disk, id, own);
    match e {
      case Do(op) =>
        if h.session.Some? {
          var c := Perform(root, h.disk, h.session.value, op).call;
          assert Seen(c)[|c.trace|] == c.disk;
          CallKeepsSecrets(root, h.disk, h.session.value, op, |c.trace|, id);
        }
      case CrashDuring(op, at, found) =>
        if h.session.Some? {
          var seen := Seen(Perform(root, h.disk, h.session.value, op).call);
          if at < |seen| && Survives(seen[at], found) {
            CallKeepsSecrets(root, h.disk, h.session.value, op, at, id);
            PerformOk({}, root, h.disk, h.session.value, op);
            CrashKeepsSecrets(h.disk, seen[at], found, id, own);
          }
        }
      case Crash(found) => if Survives(h.disk, found) { CrashKeepsSecrets(h.disk, h.disk, found, id, own); }
      case Discard(d) => DiscardSecrets(h.disk, d, id, own);
      case DiscardInterrupted(d) => DiscardSecrets(h.disk, d, id, own);
      case _ =>
    }
  }

  lemma SameSecrets(d: Disk, id: Id, own: bool)
    ensures SecretKept(d, d, id, own)
  {}

  lemma DiscardSecrets(d: Disk, gone: Id, id: Id, own: bool)
    ensures SecretKept(d, DiscardCall(d, gone).disk, id, own) && SecretKept(d, DiscardCall(d, gone).trace[0], id, own)
  {}
}
