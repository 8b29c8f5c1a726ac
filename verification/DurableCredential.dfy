/** Where a stored resume credential comes from: it is the very value that the session which
    created the journal gave when it negotiated, at every crash point from then on. */
module DurableCredential {
  import opened Wire
  import opened Journals
  import opened Storage
  import opened Durable
  import opened DurableSafety
  import opened DurableResults
  import SafePath

  function Credential(d: Disk, id: Id): Option<nat> {
    if id in d.journals && d.journals[id].Whole? then d.journals[id].j.secret else None
  }

  /** A negotiation that hands out a credential: the first one that succeeds in the session that
      created the journal, for the manifest the journal is bound to. */
  predicate Grants(h: Host, op: Op, id: Id) {
    && h.session.Some? && op.OpNegotiate? && op.fault == NoFault
    && var s, m := h.session.value, SafePath.Validate(op.manifest);
    && !Idle(s) && !s.resumed && s.journal.Some? && s.journal.value.transferId == id && s.journal.value.secret == None
    && m.Some? && m.value.transferId == id && s.journal.value.fingerprint == Fingerprint(m.value)
    && ResumeStateFor(h.disk, s, m.value).Some?
  }

  /** The disk on which the new journal has just been renamed into place. */
  const RENAMED: nat := 2

  /** The credential the history says journal `id` has: that of the last granting negotiation
      that got as far as the rename, unless the journal has gone since. */
  function Given(root: nat, start: Disk, es: seq<Event>, id: Id): Option<nat> {
    if es == [] then None
    else
      var init, e := es[..|es| - 1], es[|es| - 1];
      var h := Exec(root, start, init);
      if e.Do? && Grants(h, e.op, id) then Some(e.op.secret)
      else if e.CrashDuring? && Grants(h, e.op, id) && e.at == RENAMED && Apply(root, h, e).session == None
      then Some(e.op.secret)
      else if id in Exec(root, start, es).disk.journals then Given(root, start, init, id)
      else None
  }

  // ---------------------------------------------------------------- one call

  lemma WriteKeepsCredential(d: Disk, s: Session, f: nat, bytes: seq<byte>, stateful: bool, now: int, fault: WriteFault)
    requires s.journal.Some?
    ensures var t := WriteBlock(d, s, f, bytes, stateful, now, fault).session;
            t.journal.Some? && t.journal.value.secret == s.journal.value.secret
  {
    hide WriteBlock, SaveJournal, CommittedBytes, Then;
    WriteShape(d, s, f, bytes, stateful, now, fault);
  }

  /** Nothing but a negotiation touches the credential a session holds. */
  lemma OthersKeepCredential(root: nat, d: Disk, s: Session, op: Op)
    requires SessionOk({}, d, s) && !Idle(s) && s.journal.Some? && !op.OpNegotiate?
    ensures var t := Perform(root, d, s, op).session;
            t.journal.Some? && t.journal.value.secret == s.journal.value.secret
  {
    hide Prepare, Negotiate, OpenPart, WriteBlock, FinishFile, Close, SinkOk, SeedOk, Valid;
    match op {
      case OpPrepare(m, now, fault) => PreparedTwice(d, s, m, root, now, fault);
      case OpOpen(f) => OpenJournal(d, s, f);
      case OpWrite(f, bytes, stateful, now, fault) => WriteKeepsCredential(d, s, f, bytes, stateful, now, fault);
      case OpFinish(f, syncOk) => FinishKeepsJournal(d, s, f, syncOk);
      case OpClose(modes) => CloseKeepsJournal(d, s, modes);
      case _ =>
    }
  }

  lemma FinishKeepsJournal(d: Disk, s: Session, f: nat, syncOk: bool)
    ensures FinishFile(d, s, f, syncOk).session.journal == s.journal
  {}

  lemma CloseKeepsJournal(d: Disk, s: Session, modes: seq<PromoteMode>)
    ensures Close(d, s, modes).session.journal == s.journal
  {
    hide AllFinished, PromoteAll;
  }

  /** A journal is created without a credential. */
  lemma CreatedWithout(root: nat, d: Disk, s: Session, op: Op)
    requires SessionOk({}, d, s) && DiskOk({}, d) && !Idle(s) && s.journal == None
    ensures var t := Perform(root, d, s, op).session;
            t.journal.Some? ==>
              || t.journal.value.secret == None
              || (t.journal.value.transferId in d.journals && d.journals[t.journal.value.transferId] == Whole(t.journal.value))
  {
    hide DiskOk, Prepare, Negotiate, OpenPart, WriteBlock, FinishFile, Close, SinkOk, SeedOk, Valid;
    match op {
      case OpPrepare(m, now, fault) => PrepareWithout(d, s, m, root, now, fault);
      case OpNegotiate(m, secret, fault) => NothingToNegotiate(d, s, m, secret, fault);
      case OpOpen(f) => OpenJournal(d, s, f);
      case OpWrite(f, bytes, stateful, now, fault) => WriteKeepsTerms(d, s, f, bytes, stateful, now, fault);
      case OpFinish(f, syncOk) => FinishKeepsJournal(d, s, f, syncOk);
      case OpClose(modes) => CloseKeepsJournal(d, s, modes);
    }
  }

  lemma PrepareWithout(d: Disk, s: Session, raw: Manifest, root: nat, now: int, fault: JournalFault)
    requires DiskOk({}, d) && s.journal == None
    ensures var t := Prepare(d, s, raw, root, now, fault).session;
            t.journal.Some? ==>
              || t.journal.value.secret == None
              || (t.journal.value.transferId in d.journals && d.journals[t.journal.value.transferId] == Whole(t.journal.value))
  {
    hide DiskOk, SafePath.Validate, Prepare, AdoptJournal, LoadJournal, Valid, SaveJournal;
    PrepareShape(d, s, raw, root, now, fault);
    var v, s1 := SafePath.Validate(raw), s.(flags := s.flags.(prepared := true));
    if v.Some? && LoadJournal(d, v.value.transferId).Found? {
      LoadedIsWhole(d, v.value.transferId);
      AdoptSession(d, s1, v.value, root, LoadJournal(d, v.value.transferId).j);
    }
  }

  /** A granting negotiation saves the credential it was given, and any other saves none. */
  lemma NegotiateSaves(d: Disk, s: Session, op: Op, at: nat, id: Id)
    requires SessionOk({}, d, s) && DiskOk({}, d) && !Idle(s) && s.journal.Some? && op.OpNegotiate?
    requires at < |Seen(Negotiate(d, s, op.manifest, op.secret, op.fault).call)|
    ensures var r := Negotiate(d, s, op.manifest, op.secret, op.fault);
            Credential(Seen(r.call)[at], id)
            == if Grants(Host(d, Some(s)), op, id) && at == RENAMED then Some(op.secret) else Credential(d, id)
    ensures var r := Negotiate(d, s, op.manifest, op.secret, op.fault);
            Grants(Host(d, Some(s)), op, id) ==>
              r.call.ok && |r.call.trace| == RENAMED && r.session.journal == Some(s.journal.value.(secret := Some(op.secret)))
  {
    hide SafePath.Validate, ResumeStateFor, Valid, SinkOk, SeedOk, JournalOk, NamesOk;
    SecretKeepsValid(s.journal.value, op.secret);
  }

  /** What every crash point of a call shows of the credential of journal `id`. */
  lemma CallCredential(root: nat, d: Disk, s: Session, op: Op, at: nat, id: Id)
    requires DiskOk({}, d) && (Idle(s) || SessionOk({}, d, s))
    requires at < |Seen(Perform(root, d, s, op).call)|
    ensures var e := Seen(Perform(root, d, s, op).call)[at];
            id in e.journals ==>
              Credential(e, id)
              == if Grants(Host(d, Some(s)), op, id) && at == RENAMED then Some(op.secret) else Credential(d, id)
    ensures Grants(Host(d, Some(s)), op, id) ==> |Perform(root, d, s, op).call.trace| == RENAMED
  {
    hide DiskOk, Perform, SinkOk, SeedOk, Valid, Grants;
    PerformOwn(root, d, s, op);
    var r := Perform(root, d, s, op);
    assert OwnJournalOnly(d, Seen(r.call)[at], if op.OpClose? then s.journal else None, r.session.journal);
    if Idle(s) {
      IdleKeeps(root, d, s, op);
      GrantsFacts(Host(d, Some(s)), op, id);
    } else if s.journal == None {
      CreatedWithout(root, d, s, op);
      UnjournaledKeeps(root, d, s, op);
      GrantsFacts(Host(d, Some(s)), op, id);
    } else if op.OpNegotiate? {
      NegotiateIs(root, d, s, op);
      NegotiateSaves(d, s, op, at, id);
    } else {
      OthersKeepCredential(root, d, s, op);
      PerformSecret(root, d, s, op);
      GrantsFacts(Host(d, Some(s)), op, id);
    }
  }

  lemma GrantsFacts(h: Host, op: Op, id: Id)
    ensures Grants(h, op, id) ==>
              op.OpNegotiate? && h.session.Some? && !Idle(h.session.value) && h.session.value.journal.Some?
  {}

  lemma NegotiateIs(root: nat, d: Disk, s: Session, op: Op)
    requires !Idle(s) && op.OpNegotiate?
    ensures Perform(root, d, s, op) == Negotiate(d, s, op.manifest, op.secret, op.fault)
  {}

  // ---------------------------------------------------------------- runs

  lemma CrashCredential(d: Disk, found: Disk, id: Id)
    requires DiskOk({}, d) && Survives(d, found)
    ensures Credential(found, id) == Credential(d, id) && (id in found.journals <==> id in d.journals)
  {
    hide Valid, NamesOk, Backed;
    if id in d.journals { assert JournalOk({}, d, id, d.journals[id]); }
  }

  lemma DiscardCredential(d: Disk, gone: Id, id: Id)
    ensures id in DiscardCall(d, gone).disk.journals ==>
              id in d.journals && Credential(DiscardCall(d, gone).disk, id) == Credential(d, id)
    ensures id in DiscardCall(d, gone).trace[0].journals ==>
              id in d.journals && Credential(DiscardCall(d, gone).trace[0], id) == Credential(d, id)
  {}

  lemma DoCredential(root: nat, h: Host, op: Op, id: Id)
    requires HostOk({}, h) && h.session.Some?
    ensures var d := Apply(root, h, Do(op)).disk;
            id in d.journals ==> Credential(d, id) == if Grants(h, op, id) then Some(op.secret) else Credential(h.disk, id)
    ensures Grants(h, op, id) ==> id in Apply(root, h, Do(op)).disk.journals
  {
    hide DiskOk, SessionOk, Perform, Grants;
    var c := Perform(root, h.disk, h.session.value, op).call;
    assert h == Host(h.disk, Some(h.session.value));
    assert Seen(c)[|c.trace|] == c.disk;
    CallCredential(root, h.disk, h.session.value, op, |c.trace|, id);
    if Grants(h, op, id) { GrantedIsThere(root, h, op, id); }
  }

  lemma GrantedIsThere(root: nat, h: Host, op: Op, id: Id)
    requires HostOk({}, h) && Grants(h, op, id)
    ensures var c := Perform(root, h.disk, h.session.value, op).call;
            |c.trace| == RENAMED && forall i :: 0 <= i < |Seen(c)| ==> id in Seen(c)[i].journals
  {
    hide DiskOk, Valid, SinkOk, SeedOk, SafePath.Validate, ResumeStateFor;
    SecretKeepsValid(h.session.value.journal.value, op.secret);
  }

  lemma CrashDuringCredential(root: nat, h: Host, e: Event, id: Id)
    requires HostOk({}, h) && e.CrashDuring?
    ensures var t := Apply(root, h, e);
            id in t.disk.journals ==>
              Credential(t.disk, id)
              == if Grants(h, e.op, id) && e.at == RENAMED && t.session == None then Some(e.op.secret)
                 else Credential(h.disk, id)
    ensures Grants(h, e.op, id) && e.at == RENAMED && Apply(root, h, e).session == None ==>
              id in Apply(root, h, e).disk.journals
  {
    hide DiskOk, SessionOk, Perform, Grants, Survives;
    if h.session.Some? {
      assert h == Host(h.disk, Some(h.session.value));
      var seen := Seen(Perform(root, h.disk, h.session.value, e.op).call);
      if e.at < |seen| && Survives(seen[e.at], e.found) {
        CallCredential(root, h.disk, h.session.value, e.op, e.at, id);
        PerformOk({}, root, h.disk, h.session.value, e.op);
        CrashCredential(seen[e.at], e.found, id);
        if Grants(h, e.op, id) { GrantedIsThere(root, h, e.op, id); }
      }
    } else {
      GrantsFacts(h, e.op, id);
    }
  }

  /** A call creates a journal where there was none without a credential. */
  lemma AbsentHasNone(d: Disk, id: Id)
    ensures id !in d.journals ==> Credential(d, id) == None
  {}

  lemma StepCredential(root: nat, h: Host, e: Event, id: Id)
    requires HostOk({}, h)
    ensures var t := Apply(root, h, e);
            id in t.disk.journals ==>
              Credential(t.disk, id)
              == if e.Do? && Grants(h, e.op, id) then Some(e.op.secret)
                 else if e.CrashDuring? && Grants(h, e.op, id) && e.at == RENAMED && t.session == None then Some(e.op.secret)
                 else Credential(h.disk, id)
    ensures e.Do? && Grants(h, e.op, id) ==> id in Apply(root, h, e).disk.journals
    ensures e.CrashDuring? && Grants(h, e.op, id) && e.at == RENAMED && Apply(root, h, e).session == None ==>
              id in Apply(root, h, e).disk.journals
  {
    hide DiskOk, SessionOk, Perform, Grants, Survives, Credential, DiscardCall;
    match e {
      case Do(op) => if h.session.Some? { DoCredential(root, h, op, id); } else { GrantsFacts(h, op, id); }
      case CrashDuring(_, _, _) => CrashDuringCredential(root, h, e, id);
      case Crash(found) => if Survives(h.disk, found) { CrashCredential(h.disk, found, id); }
      case Discard(gone) => DiscardCredential(h.disk, gone, id);
      case DiscardInterrupted(gone) => DiscardCredential(h.disk, gone, id);
      case _ =>
    }
  }

  lemma {:induction false} RunCredential(root: nat, start: Disk, es: seq<Event>, id: Id)
    requires DiskOk({}, start) && id !in start.journals
    ensures Credential(Exec(root, start, es).disk, id) == Given(root, start, es, id)
    decreases |es|
  {
    hide DiskOk, SessionOk, Apply, Grants, Credential;
    AbsentHasNone(Exec(root, start, es).disk, id);
    if es != [] {
      var init := es[..|es| - 1];
      RunCredential(root, start, init, id);
      NoTrustNeeded(root, start, init);
      ReachableOk({}, root, start, init);
      StepCredential(root, Exec(root, start, init), es[|es| - 1], id);
    }
  }

  // ---------------------------------------------------------------- main result

  /** At every crash point of every run a journal on disk has a credential exactly when the
      session that created it negotiated successfully, and it is the one it gave then; from the
      moment that negotiation has renamed the journal into place until the journal is removed. */
  lemma CredentialExactly(root: nat, start: Disk, es: seq<Event>, op: Op, at: nat, id: Id)
    requires DiskOk({}, start) && id !in start.journals
    requires at < |CrashPoints(root, start, es, op)|
    ensures var h, d := Exec(root, start, es), CrashPoints(root, start, es, op)[at];
            id in d.journals ==>
              Credential(d, id)
              == if Grants(h, op, id) && at == RENAMED + 1 then Some(op.secret) else Given(root, start, es, id)
  {
    hide DiskOk, SessionOk, Perform, Grants, Credential, Exec, Given;
    var h := Exec(root, start, es);
    RunCredential(root, start, es, id);
    NoTrustNeeded(root, start, es);
    ReachableOk({}, root, start, es);
    if h.session.Some? {
      assert h == Host(h.disk, Some(h.session.value));
      if at > 0 { CallCredential(root, h.disk, h.session.value, op, at - 1, id); }
    } else {
      GrantsFacts(h, op, id);
    }
  }

  /** The session that was given the credential holds the same one. */
  lemma SessionHolds(root: nat, start: Disk, es: seq<Event>, id: Id)
    requires DiskOk({}, start) && id !in start.journals
    requires var h := Exec(root, start, es);
             && h.session.Some? && !Idle(h.session.value)
             && h.session.value.journal.Some? && h.session.value.journal.value.transferId == id
    ensures Exec(root, start, es).session.value.journal.value.secret == Given(root, start, es, id)
  {
    hide DiskOk, Exec, Given, Valid, SinkOk, SeedOk;
    RunCredential(root, start, es, id);
    NoTrustNeeded(root, start, es);
    ReachableOk({}, root, start, es);
  }

  /** A first receive that negotiates grants, so the history is not empty. */
  lemma FirstNegotiationGrants(root: nat, start: Disk, es: seq<Event>, op: Op, id: Id)
    requires DiskOk({}, start) && id !in start.journals && Grants(Exec(root, start, es), op, id)
    ensures var d := Exec(root, start, es + [Do(op)]).disk;
            id in d.journals && Credential(d, id) == Some(op.secret) && Given(root, start, es + [Do(op)], id) == Some(op.secret)
  {
    hide DiskOk, SessionOk, Apply, Grants, Credential;
    assert (es + [Do(op)])[..|es|] == es;
    NoTrustNeeded(root, start, es);
    ReachableOk({}, root, start, es);
    StepCredential(root, Exec(root, start, es), Do(op), id);
    RunCredential(root, start, es + [Do(op)], id);
  }
}
