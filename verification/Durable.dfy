/** The durable receive destination, one call at a time. Every call is given as the list of
    disks it passes through, so that a crash can be placed between any two disk operations. */
module Durable {
  import opened Wire
  import opened Geometry
  import opened Journals
  import opened Storage
  import SafePath

  /** One opened file: its inode and the receiving engine's progress in it. */
  datatype Sink = Sink(inode: nat, next: nat, digest: seq<byte>, finished: bool)

  /** What resumption hands to the receiving engine for one file. */
  datatype Seed = Seed(haveBlocks: int, digest: seq<byte>)

  /** The journal the user selected for resumption, and whether resume-auth completed. */
  datatype Gate = Gate(selected: Id, authorized: bool)

  datatype Flags = Flags(prepared: bool, closed: bool, stopped: bool)

  /** A receive session. It stops at its first error, as the receiving engine does. */
  datatype Session = Session(
    gate: Gate, flags: Flags,
    journal: Option<Journal>, resumed: bool,
    seeds: Option<seq<Seed>>,
    sinks: map<nat, Sink>)

  function NewSession(selected: Id, authorized: bool): Session {
    Session(Gate(selected, authorized), Flags(false, false, false), None, false, None, map[])
  }

  /** The store's storage directory, which no manifest path may claim. */
  const STORAGE_DIR: seq<byte> := [0x2E, 0x73, 0x65, 0x6E, 0x64, 0x62, 0x65, 0x61, 0x6D]

  predicate Collides(name: seq<byte>) {
    name == STORAGE_DIR || STORAGE_DIR + [0x2F] <= name
  }

  /** The session after a call, with what the call did to the disk. */
  datatype Result = Result(call: Call, session: Session)

  function Stop(s: Session): Session { s.(flags := s.flags.(stopped := true)) }

  /** Once prepared, a session keeps its authorization, its transfer, its seeds, and the
      credential of its journal if there is one. */
  predicate KeepsTerms(s: Session, t: Session) {
    && t.gate.selected == s.gate.selected && t.gate.authorized == s.gate.authorized
    && t.resumed == s.resumed && t.seeds == s.seeds
    && (t.journal.Some? <==> s.journal.Some?)
    && (s.journal.Some? ==>
          && t.journal.value.transferId == s.journal.value.transferId
          && (s.journal.value.secret.Some? || s.resumed ==> t.journal.value.secret == s.journal.value.secret))
  }

  // ---------------------------------------------------------------- Prepare

  predicate AuthorizedFor(s: Session, journalId: Id, manifestId: Id) {
    s.gate.authorized && s.gate.selected != [] && s.gate.selected == journalId && s.gate.selected == manifestId
  }

  function CreateJournal(d: Disk, s: Session, m: Manifest, root: nat, now: int, fault: JournalFault): Result {
    match New(m, root, now)
    case None => Result(Refuse(d), Stop(s))
    case Some(j) =>
      var saved := SaveJournal(d, j, fault);
      var s1 := s.(journal := Some(j));
      Result(saved, if saved.ok then s1 else Stop(s1))
  }

  function AdoptJournal(d: Disk, s: Session, m: Manifest, root: nat, j: Journal): Result {
    if j.fingerprint != Fingerprint(m) then Result(Refuse(d), Stop(s))
    else if !AuthorizedFor(s, j.transferId, m.transferId) then Result(Refuse(d), Stop(s))
    else if j.destination != root then Result(Refuse(d), Stop(s))
    else Result(Nothing(d), s.(journal := Some(j), resumed := true))
  }

  function Prepare(d: Disk, s: Session, raw: Manifest, root: nat, now: int, fault: JournalFault): Result {
    match SafePath.Validate(raw)
    case None => Result(Refuse(d), Stop(s))
    case Some(m) =>
      if s.flags.prepared then Result(Refuse(d), Stop(s))
      else
        var s1 := s.(flags := s.flags.(prepared := true));
        if m.transferId == [] || (exists i :: 0 <= i < |m.files| && Collides(m.files[i].name))
        then Result(Refuse(d), Stop(s1))
        else match LoadJournal(d, m.transferId)
          case Unusable => Result(Refuse(d), Stop(s1))
          case Missing => CreateJournal(d, s1, m, root, now, fault)
          case Found(j) => AdoptJournal(d, s1, m, root, j)
  }

  // ---------------------------------------------------------------- resumption

  function PartOf(d: Disk, id: Id, f: nat): Option<File> {
    if Key(id, f) in d.parts && d.parts[Key(id, f)] in d.files then Some(d.files[d.parts[Key(id, f)]]) else None
  }

  /** A stored digest is restored when this runtime wrote it; otherwise the persisted prefix
      is hashed again. A missing or short partial fails closed. */
  function SeedFor(d: Disk, id: Id, f: nat, s: FileState): Option<Seed> {
    if s.committed == 0 then Some(Seed(0, []))
    else
      var part := PartOf(d, id, f);
      if part == None || |part.value.data| < CommittedBytes(s) || CommittedBytes(s) < 0 then None
      else if s.checkpoint.Some? && s.checkpoint.value.native then Some(Seed(s.committed, s.checkpoint.value.state))
      else Some(Seed(s.committed, part.value.data[..CommittedBytes(s)]))
  }

  function SeedsFor(d: Disk, j: Journal, n: nat): Option<seq<Seed>>
    requires n <= |j.files|
  {
    if n == 0 then Some([])
    else
      match SeedsFor(d, j, n - 1)
      case None => None
      case Some(seeds) =>
        match SeedFor(d, j.transferId, n - 1, j.files[n - 1])
        case None => None
        case Some(seed) => Some(seeds + [seed])
  }

  predicate HasProgress(j: Journal) { exists i :: 0 <= i < |j.files| && j.files[i].committed > 0 }

  /** `ResumeStateFor`: what may be advertised to the peer, or None on refusal. */
  function ResumeStateFor(d: Disk, s: Session, m: Manifest): Option<seq<Seed>> {
    if s.journal == None then None
    else
      var j := s.journal.value;
      if HasProgress(j) && !AuthorizedFor(s, j.transferId, m.transferId) then None
      else if j.fingerprint != Fingerprint(m) then None
      else SeedsFor(d, j, |j.files|)
  }

  /** `AttachResumeSecret`: only a journal created in this session gets a credential. */
  function AttachSecret(d: Disk, s: Session, m: Manifest, secret: nat, fault: JournalFault): (r: Result)
    ensures KeepsTerms(s, r.session)
  {
    if s.journal == None || s.journal.value.transferId != m.transferId then Result(Refuse(d), Stop(s))
    else if s.journal.value.fingerprint != Fingerprint(m) then Result(Refuse(d), Stop(s))
    else if s.journal.value.secret.Some? || s.resumed then Result(Nothing(d), s)
    else
      var j := s.journal.value.(secret := Some(secret));
      var saved := SaveJournal(d, j, fault);
      var s1 := s.(journal := Some(j));
      Result(saved, if saved.ok then s1 else Stop(s1))
  }

  /** What the driver does when the authenticated manifest is set. */
  function Negotiate(d: Disk, s: Session, raw: Manifest, secret: nat, fault: JournalFault): Result {
    match SafePath.Validate(raw)
    case None => Result(Refuse(d), Stop(s))
    case Some(m) =>
      match ResumeStateFor(d, s, m)
      case None => Result(Refuse(d), Stop(s))
      case Some(seeds) => AttachSecret(d, s.(seeds := Some(seeds)), m, secret, fault)
  }

  // ---------------------------------------------------------------- files

  function NewInode(d: Disk, k: Key): Disk {
    d.(files := d.files[d.next := EmptyFile], parts := d.parts[k := d.next], next := d.next + 1)
  }

  function AddSink(s: Session, f: nat, inode: nat): Session
    requires s.seeds.Some? && f < |s.seeds.value|
  {
    var seed := s.seeds.value[f];
    s.(sinks := s.sinks[f := Sink(inode, if seed.haveBlocks < 0 then 0 else seed.haveBlocks, seed.digest, false)])
  }

  /** `Open`: an existing partial is truncated to the checkpoint, a missing one is created
      exclusively; a stale partial of a fresh journal is refused. */
  function OpenPart(d: Disk, s: Session, f: nat): (r: Result)
    ensures KeepsTerms(s, r.session)
  {
    if s.flags.closed || !s.flags.prepared || s.journal == None || s.seeds == None then Result(Refuse(d), Stop(s))
    else
      var j := s.journal.value;
      if f >= |j.files| || f >= |s.seeds.value| || f in s.sinks then Result(Refuse(d), Stop(s))
      else
        var key, claim := Key(j.transferId, f), CommittedBytes(j.files[f]);
        var part := PartOf(d, j.transferId, f);
        if s.resumed && part.Some? && FileOk(part.value) && 0 <= claim <= |part.value.data| then
          Result(Call([], SetFile(d, d.parts[key], Truncate(part.value, claim)), true), AddSink(s, f, d.parts[key]))
        else if key in d.parts || (s.resumed && claim > 0) then Result(Refuse(d), Stop(s))
        else Result(Call([], NewInode(d, key), true), AddSink(s, f, d.next))
  }

  datatype WriteFault = NoWriteFault | ShortWrite(n: nat) | SyncFails | OverBudget | JournalFails(at: JournalFault)

  function Progressed(s: Session, f: nat, bytes: seq<byte>): Session
    requires f in s.sinks
  {
    var k := s.sinks[f];
    s.(sinks := s.sinks[f := k.(next := k.next + 1, digest := k.digest + bytes)])
  }

  /** The in-memory checkpoint, then the budget, then the journal on disk. */
  function CommitBlock(d: Disk, s: Session, f: nat, bytes: seq<byte>, stateful: bool, now: int,
      fault: WriteFault): Result
    requires f in s.sinks && s.journal.Some?
  {
    var k := s.sinks[f];
    match Record(s.journal.value, f, k.next + 1, if stateful then Some(k.digest + bytes) else None, now)
    case None => Result(Refuse(d), Stop(s))
    case Some(j) =>
      var s1 := s.(journal := Some(j));
      if fault.OverBudget? then Result(Refuse(d), Stop(s1))
      else
        var saved := SaveJournal(d, j, if fault.JournalFails? then fault.at else NoFault);
        Result(saved, if saved.ok then Progressed(s1, f, bytes) else Stop(s1))
  }

  /** One verified block: data write, sync, checkpoint. The engine writes the next block of
      the file at its own offset and has already fed it to its digest. */
  function WriteBlock(d: Disk, s: Session, f: nat, bytes: seq<byte>, stateful: bool, now: int,
      fault: WriteFault): Result {
    if f !in s.sinks || s.sinks[f].finished || s.journal == None || s.flags.closed || f >= |s.journal.value.files|
    then Result(Refuse(d), Stop(s))
    else
      var k, e := s.sinks[f], s.journal.value.files[f].entry;
      if || k.inode !in d.files || !FileOk(d.files[k.inode])
         || k.next >= e.blocks || |bytes| != BlockLength(e, k.next) || e.blockSize < 0
      then Result(Refuse(d), Stop(s))
      else
        MulNonNegative(k.next, e.blockSize);
        var offset: nat := k.next * e.blockSize;
        if fault.ShortWrite? then
          var n := Min(fault.n, |bytes|);
          Result(Call([], SetFile(d, k.inode, WriteAt(d.files[k.inode], offset, bytes[..n])), false), Stop(s))
        else
          var written := SetFile(d, k.inode, WriteAt(d.files[k.inode], offset, bytes));
          if fault.SyncFails? then Result(Call([], written, false), Stop(s))
          else
            var synced := SetFile(d, k.inode, Sync(written.files[k.inode]));
            var commit := CommitBlock(synced, s, f, bytes, stateful, now, fault);
            Result(Then(Call([], written, true), Then(Call([], synced, true), commit.call)), commit.session)
  }

  /** The engine's whole-file check followed by the sink's own sync and close. */
  function FinishFile(d: Disk, s: Session, f: nat, syncOk: bool): (r: Result)
    ensures KeepsTerms(s, r.session)
  {
    if f !in s.sinks || s.sinks[f].finished || s.journal == None || f >= |s.journal.value.files| || s.flags.closed
    then Result(Refuse(d), Stop(s))
    else
      var k, e := s.sinks[f], s.journal.value.files[f].entry;
      if k.next != e.blocks || Sha(k.digest) != e.digest || k.inode !in d.files || !syncOk then Result(Refuse(d), Stop(s))
      else Result(Call([], SetFile(d, k.inode, Sync(d.files[k.inode])), true),
                  s.(sinks := s.sinks[f := k.(finished := true)]))
  }

  // ---------------------------------------------------------------- Close, Abort, Discard

  /** How one promotion goes: by hard link, by the rename fallback, with the partial's unlink
      failing, or with both the link and the rename failing. */
  datatype PromoteMode = ByLink | ByRename | UnlinkFails | BothFail

  function Promote(d: Disk, key: Key, name: seq<byte>, mode: PromoteMode): Call {
    if key !in d.parts || name in d.finals then Refuse(d)
    else
      var linked := d.(finals := d.finals[name := d.parts[key]]);
      match mode
      case ByLink => Call([linked], linked.(parts := linked.parts - {key}), true)
      case UnlinkFails => Call([], linked, false)
      case ByRename => Call([], linked.(parts := linked.parts - {key}), true)
      case BothFail => Refuse(d)
  }

  function ModeAt(modes: seq<PromoteMode>, i: nat): PromoteMode { if i < |modes| then modes[i] else ByLink }

  /** Promotes files `[0, n)` in order, stopping at the first failure. */
  function PromoteAll(d: Disk, j: Journal, n: nat, modes: seq<PromoteMode>): Call
    requires n <= |j.files|
  {
    if n == 0 then Nothing(d)
    else
      var before := PromoteAll(d, j, n - 1, modes);
      if !before.ok then before
      else Then(before, Promote(before.disk, Key(j.transferId, n - 1), j.files[n - 1].entry.name, ModeAt(modes, n - 1)))
  }

  function RemoveParts(d: Disk, id: Id): Disk {
    d.(parts := map k | k in d.parts && k.id != id :: d.parts[k])
  }

  /** The journal goes first, then the partial tree. */
  function DiscardCall(d: Disk, id: Id): Call {
    var bare := d.(journals := d.journals - {id});
    Call([bare], RemoveParts(bare, id), true)
  }

  predicate AllFinished(s: Session) {
    && s.journal.Some?
    && (forall f :: 0 <= f < |s.journal.value.files| ==> f in s.sinks && s.sinks[f].finished)
  }

  /** `Close`: runs after the engine verified every file; promotes, then drops the journal. */
  function Close(d: Disk, s: Session, modes: seq<PromoteMode>): (r: Result)
    ensures KeepsTerms(s, r.session)
  {
    if s.flags.closed || !AllFinished(s) then Result(Refuse(d), Stop(s))
    else
      var j := s.journal.value;
      var promoted := PromoteAll(d, j, |j.files|, modes);
      if !promoted.ok then Result(promoted, Stop(s.(flags := s.flags.(closed := true))))
      else Result(Then(promoted, DiscardCall(promoted.disk, j.transferId)), s.(flags := s.flags.(closed := true)))
  }

  // ---------------------------------------------------------------- runs

  datatype Op =
    | OpPrepare(manifest: Manifest, now: int, fault: JournalFault)
    | OpNegotiate(manifest: Manifest, secret: nat, fault: JournalFault)
    | OpOpen(f: nat)
    | OpWrite(f: nat, bytes: seq<byte>, stateful: bool, now: int, writeFault: WriteFault)
    | OpFinish(f: nat, syncOk: bool)
    | OpClose(modes: seq<PromoteMode>)

  /** A running session makes one call; one that has stopped or finished makes none. */
  function Perform(root: nat, d: Disk, s: Session, op: Op): Result {
    if s.flags.stopped || s.flags.closed then Result(Refuse(d), s)
    else match op
      case OpPrepare(m, now, fault) => Prepare(d, s, m, root, now, fault)
      case OpNegotiate(m, secret, fault) => Negotiate(d, s, m, secret, fault)
      case OpOpen(f) => OpenPart(d, s, f)
      case OpWrite(f, bytes, stateful, now, fault) => WriteBlock(d, s, f, bytes, stateful, now, fault)
      case OpFinish(f, syncOk) => FinishFile(d, s, f, syncOk)
      case OpClose(modes) => Close(d, s, modes)
  }

  /** The disk and the session using it, if any. */
  datatype Host = Host(disk: Disk, session: Option<Session>)

  datatype Event =
    | Begin(selected: Id, authorized: bool)
    | Do(op: Op)
    | CrashDuring(op: Op, at: nat, found: Disk)
    | Crash(found: Disk)
    | Abort
    | Discard(id: Id)
    | DiscardInterrupted(id: Id)

  /** One event. A crash ends the session and leaves any disk the crash allows; an abort ends
      it and leaves the disk alone. */
  function Apply(root: nat, h: Host, e: Event): Host {
    match e
    case Begin(selected, authorized) =>
      if h.session == None then h.(session := Some(NewSession(selected, authorized))) else h
    case Do(op) =>
      if h.session == None then h
      else
        var r := Perform(root, h.disk, h.session.value, op);
        Host(r.call.disk, Some(r.session))
    case CrashDuring(op, at, found) =>
      if h.session == None then h
      else
        var seen := Seen(Perform(root, h.disk, h.session.value, op).call);
        if at < |seen| && Survives(seen[at], found) then Host(found, None) else h
    case Crash(found) => if Survives(h.disk, found) then Host(found, None) else h
    case Abort => h.(session := None)
    case Discard(id) => if h.session == None then h.(disk := DiscardCall(h.disk, id).disk) else h
    case DiscardInterrupted(id) => if h.session == None then h.(disk := DiscardCall(h.disk, id).trace[0]) else h
  }

  function Exec(root: nat, start: Disk, es: seq<Event>): Host {
    if es == [] then Host(start, None) else Apply(root, Exec(root, start, es[..|es| - 1]), es[|es| - 1])
  }
}
