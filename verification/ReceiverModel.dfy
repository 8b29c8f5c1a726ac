/** The receiving engine as a deterministic state machine: every handler is a function from
    the state before a call to the state after it. `link.sent` lists the control messages the
    receiver has sealed, in order, and `link.sealer` the counters it sealed them under. */
module ReceiverModel {
  import opened Wire
  import opened Geometry
  import SafePath

  /** A block under assembly: its position, its allocated size and the bytes so far. */
  datatype Assembly = Assembly(file: nat, block: nat, size: int, got: seq<byte>)

  datatype FileProgress = FileProgress(haveBlocks: int, seed: Option<seq<byte>>)

  /** The host's claim about an interrupted receive. `fingerprint` is None when the stored
      string is not a well-formed digest. */
  datatype ReceiverResume = ReceiverResume(
    transferId: seq<byte>,
    fingerprint: Option<Fingerprint>,
    files: map<int, FileProgress>)

  /** One write the sink accepted: the block it holds and the byte offset it went to. */
  datatype Write = Write(file: nat, block: int, offset: int, bytes: seq<byte>)

  datatype Place = AtPrepare | AtOpen | AtWrite | AtFileClose | AtDestClose

  /** What goes wrong outside the engine during one call, if anything. */
  datatype Fault = NoFault | SendFault | SinkFault(at: Place, quota: bool)

  predicate FaultAt(f: Fault, at: Place) { f.SinkFault? && f.at == at }

  function SinkReason(f: Fault): Reason {
    if f.SinkFault? && f.quota then Quota else SinkError
  }

  /** The manifest and the resume claim checked against it. */
  datatype Terms = Terms(
    host: Option<ReceiverResume>,
    manifest: Option<Manifest>,
    active: Option<ReceiverResume>,
    advertised: Option<ResumeState>,
    reused: int)

  /** The current file and how far it has been committed. */
  datatype Progress = Progress(
    fileIdx: nat,
    fileOpen: bool,
    nextBlock: int,
    digest: seq<byte>,
    digests: seq<Sha>,
    acknowledged: int)

  /** The unverified part of the input. */
  datatype Intake = Intake(
    asm: Option<Assembly>,
    awaitingRestart: bool,
    seenAhead: set<int>,
    nackOutstanding: int)

  datatype Output = Output(sinks: map<nat, seq<byte>>, writes: seq<Write>, closed: bool)

  datatype State = State(
    terms: Terms, prog: Progress, intake: Intake, link: Link, out: Output, paused: bool, outcome: Outcome)

  /** A receiver before its first frame; `stored` is what the destination already holds. */
  function Init(host: Option<ReceiverResume>, stored: map<nat, seq<byte>>): State {
    State(Terms(host, None, None, None, 0),
          Progress(0, false, 0, [], [], 0),
          Intake(None, false, {}, -1),
          FreshLink,
          Output(stored, [], false),
          false, Running)
  }

  datatype Step = Ok(st: State) | Err(st: State, reason: Reason)

  function Push(r: State, m: Msg): State { r.(link := SealNext(r.link, m)) }

  function Send(r: State, m: Msg, fault: Fault): Step {
    if fault == SendFault then Err(Push(r, m), Integrity) else Ok(Push(r, m))
  }

  function AbortWith(r: State, reason: Reason, notify: bool): State {
    if r.outcome != Running then r
    else (if notify then Push(r, Fail(reason)) else r).(outcome := Failed(reason))
  }

  /** Progress only moves forward. */
  predicate Advances(p: Progress, q: Progress) {
    || p.fileIdx < q.fileIdx
    || (p.fileIdx == q.fileIdx && (p.fileOpen ==> q.fileOpen && p.nextBlock <= q.nextBlock))
  }

  // ---------------------------------------------------------------- files

  predicate HasCurrent(r: State) {
    r.terms.manifest.Some? && r.prog.fileIdx < |r.terms.manifest.value.files|
  }

  function Current(r: State): FileEntry
    requires HasCurrent(r)
  {
    r.terms.manifest.value.files[r.prog.fileIdx]
  }

  function FinishFile(r: State, fault: Fault): Step
    requires HasCurrent(r)
  {
    if Sha(r.prog.digest) != Current(r).digest then Err(r, DigestMismatch)
    else if FaultAt(fault, AtFileClose) then Err(r, SinkReason(fault))
    else Ok(r.(prog := r.prog.(digests := r.prog.digests + [Sha(r.prog.digest)],
                               fileIdx := r.prog.fileIdx + 1, fileOpen := false, digest := [])))
  }

  function HeldBlocks(t: Terms, f: FileEntry): int {
    if t.active.Some? && f.idx in t.active.value.files then t.active.value.files[f.idx].haveBlocks else 0
  }

  function SeedDigest(t: Terms, f: FileEntry): seq<byte> {
    if t.active.Some? && f.idx in t.active.value.files && t.active.value.files[f.idx].seed.Some?
    then t.active.value.files[f.idx].seed.value else []
  }

  /** The state once the current file has been chosen, before its sink is opened. */
  function EnterFile(r: State): State
    requires HasCurrent(r)
  {
    var f := Current(r);
    var held := HeldBlocks(r.terms, f);
    r.(prog := r.prog.(fileOpen := true, nextBlock := held, digest := SeedDigest(r.terms, f),
                       acknowledged := r.prog.acknowledged + Committed(f, held)),
       intake := r.intake.(seenAhead := {}, nackOutstanding := -1))
  }

  function OpenSink(r: State): State {
    if r.prog.fileIdx in r.out.sinks then r
    else r.(out := r.out.(sinks := r.out.sinks[r.prog.fileIdx := []]))
  }

  /** Opens files until one still needs blocks, finishing those that need none. */
  function OpenNextFile(r: State, fault: Fault): (s: Step)
    requires r.terms.manifest.Some?
    ensures s.st.terms == r.terms && s.st.link == r.link && s.st.outcome == r.outcome
    ensures s.st.out.writes == r.out.writes && s.st.out.closed == r.out.closed
    ensures s.st.intake.asm == r.intake.asm && s.st.intake.awaitingRestart == r.intake.awaitingRestart
    ensures !r.prog.fileOpen ==> Advances(r.prog, s.st.prog)
    decreases |r.terms.manifest.value.files| - r.prog.fileIdx
  {
    if !HasCurrent(r) then Ok(r.(prog := r.prog.(fileOpen := false, digest := [])))
    else
      var r1 := EnterFile(r);
      if FaultAt(fault, AtOpen) then Err(r1, SinkReason(fault))
      else
        var r2 := OpenSink(r1);
        if r2.prog.nextBlock < Current(r2).blocks then Ok(r2)
        else match FinishFile(r2, fault)
          case Err(r3, reason) => Err(r3, reason)
          case Ok(r3) => OpenNextFile(r3, fault)
  }

  // ---------------------------------------------------------------- manifest

  predicate SeedOk(m: Manifest, h: ReceiverResume) {
    && LowerHex(h.transferId, 32)
    && h.fingerprint == Some(Fingerprint(m))
    && |h.files| == |m.files|
    && (forall i :: 0 <= i < |m.files| ==>
          && m.files[i].idx in h.files
          && 0 <= h.files[m.files[i].idx].haveBlocks <= m.files[i].blocks)
  }

  function Marks(t: Terms, files: seq<FileEntry>): seq<ResumeFileState> {
    seq(|files|, i requires 0 <= i < |files| => ResumeFileState(files[i].idx, HeldBlocks(t, files[i])))
  }

  /** The byte baseline reported for the progress display. */
  function ReusedBytes(t: Terms, files: seq<FileEntry>): int {
    if files == [] then 0
    else
      var f := files[|files| - 1];
      ReusedBytes(t, files[..|files| - 1]) + if HeldBlocks(t, f) <= 0 then 0 else Committed(f, HeldBlocks(t, f))
  }

  function Advertisement(t: Terms, m: Manifest): ResumeState {
    ResumeState(m.transferId, Some(Fingerprint(m)), Marks(t, m.files))
  }

  /** The terms after adopting the host's seed, or None when a matching seed is invalid. */
  function AdoptSeed(t: Terms, m: Manifest): Option<Terms> {
    if t.host.Some? && t.host.value.transferId == m.transferId then
      if !SeedOk(m, t.host.value) then None
      else
        var t' := t.(active := t.host);
        Some(t'.(reused := ReusedBytes(t', m.files)))
    else Some(t)
  }

  function FirstManifest(r: State, m: Manifest): State {
    r.(terms := r.terms.(manifest := Some(m)),
       prog := r.prog.(digests := []),
       intake := r.intake.(awaitingRestart := true))
  }

  function ApplyManifest(r: State, raw: Manifest, fault: Fault): (s: Step)
    ensures s.st.out.closed == r.out.closed && SealsMore(r.link, s.st.link)
    ensures r.terms.manifest.Some? || !r.prog.fileOpen ==> Advances(r.prog, s.st.prog)
    ensures r.terms.advertised.Some? ==> s.st.terms.advertised.Some?
  {
    match SafePath.Validate(raw)
    case None => Err(r, Integrity)
    case Some(m) =>
      if r.terms.manifest.Some? then
        if m != r.terms.manifest.value then Err(r, Integrity)
        else if m.transferId != [] && r.terms.advertised.Some?
        then Send(r, ResumeMsg(r.terms.advertised.value), fault)
        else Ok(r)
      else if FaultAt(fault, AtPrepare) then Err(r, SinkReason(fault))
      else
        var r1 := FirstManifest(r, m);
        if m.transferId == [] then OpenNextFile(r1, fault)
        else match AdoptSeed(r1.terms, m)
          case None => Err(r1, SinkError)
          case Some(t) =>
            var rs := Advertisement(t, m);
            match Send(r1.(terms := t.(advertised := Some(rs))), ResumeMsg(rs), fault)
            case Err(r3, reason) => Err(r3, reason)
            case Ok(r3) => OpenNextFile(r3, fault)
  }

  // ---------------------------------------------------------------- blocks

  function SetAsm(r: State, asm: Option<Assembly>): State { r.(intake := r.intake.(asm := asm)) }

  function OnBlockData(r: State, file: nat, block: nat, off: nat, payload: seq<byte>): (s: Step)
    ensures s.st.terms == r.terms && s.st.prog == r.prog && s.st.out == r.out && s.st.link == r.link
    ensures s.st.outcome == r.outcome
  {
    if r.terms.manifest == None then Ok(r)
    else
      var files := r.terms.manifest.value.files;
      if file >= |files| || file > r.prog.fileIdx || block >= files[file].blocks then Err(r, Integrity)
      else if r.intake.awaitingRestart && off != 0 then Ok(r)
      else if off == 0 && r.intake.asm.Some? then Err(r, Integrity)
      else
        var r1 := if off != 0 then r
                  else r.(intake := r.intake.(
                    asm := Some(Assembly(file, block, BlockLength(files[file], block), [])),
                    awaitingRestart := false));
        if r1.intake.asm == None || r1.intake.asm.value.file != file || r1.intake.asm.value.block != block
        then Err(r1, Integrity)
        else
          var a := r1.intake.asm.value;
          if off != |a.got| || off + |payload| > a.size then Err(r1, Integrity)
          else Ok(SetAsm(r1, Some(a.(got := a.got + payload))))
  }

  function RequestMissing(r: State, fault: Fault): Step {
    if r.intake.nackOutstanding == r.prog.nextBlock then Ok(r)
    else Send(r.(intake := r.intake.(nackOutstanding := r.prog.nextBlock)),
              Nack(r.prog.fileIdx, r.prog.nextBlock), fault)
  }

  /** Overwrites `data` at `off`, growing it with zeros where needed. */
  function WriteAt(data: seq<byte>, off: nat, bytes: seq<byte>): seq<byte> {
    if off >= |data| then data + seq(off - |data|, _ => 0) + bytes
    else data[..off] + bytes + (if off + |bytes| < |data| then data[off + |bytes|..] else [])
  }

  function Stored(o: Output, file: nat): seq<byte> {
    if file in o.sinks then o.sinks[file] else []
  }

  function WriteBlock(o: Output, file: nat, idx: int, offset: nat, block: seq<byte>): Output {
    o.(sinks := o.sinks[file := WriteAt(Stored(o, file), offset, block)],
       writes := o.writes + [Write(file, idx, offset, block)])
  }

  /** The sink accepted the block: contents, log, high-water mark and progress move together. */
  function Committing(r: State, offset: nat, block: seq<byte>): State {
    r.(out := WriteBlock(r.out, r.prog.fileIdx, r.prog.nextBlock, offset, block),
       prog := r.prog.(nextBlock := r.prog.nextBlock + 1, acknowledged := r.prog.acknowledged + |block|),
       intake := r.intake.(nackOutstanding := -1))
  }

  function AfterAck(r: State, fault: Fault): (s: Step)
    requires HasCurrent(r)
    ensures s.st.out.closed == r.out.closed && s.st.terms == r.terms
    ensures SealsMore(r.link, s.st.link)
    ensures Advances(r.prog, s.st.prog)
  {
    if r.prog.nextBlock == Current(r).blocks then
      match FinishFile(r, fault)
      case Err(r1, reason) => Err(r1, reason)
      case Ok(r1) => OpenNextFile(r1, fault)
    else if r.prog.nextBlock in r.intake.seenAhead then
      RequestMissing(r.(intake := r.intake.(seenAhead := r.intake.seenAhead - {r.prog.nextBlock})), fault)
    else Ok(r)
  }

  function CommitBlock(r: State, block: seq<byte>, fault: Fault): (s: Step)
    requires HasCurrent(r) && 0 <= r.prog.nextBlock && 0 <= Current(r).blockSize
    ensures s.st.out.closed == r.out.closed && s.st.terms == r.terms
    ensures SealsMore(r.link, s.st.link)
    ensures Advances(r.prog, s.st.prog)
  {
    MulNonNegative(r.prog.nextBlock, Current(r).blockSize);
    var offset: nat := r.prog.nextBlock * Current(r).blockSize;
    var r1 := r.(prog := r.prog.(digest := r.prog.digest + block));
    if FaultAt(fault, AtWrite) then Err(r1, SinkReason(fault))
    else
      match Send(Committing(r1, offset, block), Ack(r.prog.fileIdx, r.prog.nextBlock), fault)
      case Err(r2, reason) => Err(r2, reason)
      case Ok(r2) => AfterAck(r2, fault)
  }

  function SeeAhead(i: Intake, block: int): Intake {
    if |i.seenAhead| < DEFAULT_INFLIGHT_BLOCKS then i.(seenAhead := i.seenAhead + {block}) else i
  }

  /** A verified block: stale ones are acknowledged again, early ones expose a gap, and the
      next one is committed. */
  function OnVerified(r: State, file: int, block: int, data: seq<byte>, fault: Fault): (s: Step)
    requires Sane(r)
    ensures s.st.out.closed == r.out.closed && s.st.terms == r.terms
    ensures SealsMore(r.link, s.st.link)
    ensures Advances(r.prog, s.st.prog)
  {
    if file < r.prog.fileIdx then Send(r, Ack(file, block), fault)
    else if !r.prog.fileOpen || file != r.prog.fileIdx then Err(r, Integrity)
    else if block < r.prog.nextBlock then Send(r, Ack(file, block), fault)
    else if block > r.prog.nextBlock then RequestMissing(r.(intake := SeeAhead(r.intake, block)), fault)
    else CommitBlock(r, data, fault)
  }

  function OnBlockHash(r: State, file: int, block: int, sha: Sha, fault: Fault): (s: Step)
    requires Sane(r)
    ensures s.st.out.closed == r.out.closed && s.st.terms == r.terms
    ensures SealsMore(r.link, s.st.link)
    ensures Advances(r.prog, s.st.prog)
  {
    if r.intake.asm == None && r.intake.awaitingRestart then Ok(r)
    else if r.terms.manifest == None then Ok(r)
    else if r.intake.asm == None then Err(r, Integrity)
    else
      var a := r.intake.asm.value;
      if file != a.file || block != a.block || |a.got| != a.size || Sha(a.got) != sha then Err(r, Integrity)
      else OnVerified(SetAsm(r, None), file, block, a.got, fault)
  }

  // ---------------------------------------------------------------- control

  function OnComplete(r: State, digest: SetDigest, fault: Fault): (s: Step)
    requires Sane(r)
    ensures s.st.terms == r.terms && s.st.prog == r.prog && s.st.out.sinks == r.out.sinks
    ensures r.out.closed ==> s.st.out.closed
    ensures SealsMore(r.link, s.st.link)
  {
    if r.terms.manifest == None then Err(r, Integrity)
    else if r.prog.fileOpen && r.prog.nextBlock != Current(r).blocks then RequestMissing(r, fault)
    else if r.prog.fileIdx != |r.terms.manifest.value.files| then Err(r, Integrity)
    else if digest != CompletionDigest(r.terms.manifest.value.files) then Err(r, DigestMismatch)
    else if FaultAt(fault, AtDestClose) then Err(r, SinkReason(fault))
    else match Send(r.(out := r.out.(closed := true)), Done, fault)
      case Err(r1, reason) => Err(r1, reason)
      case Ok(r1) => Ok(r1.(outcome := Succeeded))
  }

  function OnControl(r: State, op: ControlOp): State {
    match op
    case Pause => r.(paused := true)
    case Resume => r.(paused := false)
    case Cancel => AbortWith(r, Canceled, false)
  }

  predicate AllShaped(m: Manifest) {
    forall i :: 0 <= i < |m.files| ==> Shaped(m.files[i])
  }

  /** The facts every handler may rely on: an open file exists and has sane geometry. */
  predicate Sane(r: State) {
    && 0 <= r.prog.nextBlock
    && (r.prog.fileOpen ==> HasCurrent(r))
    && (r.terms.manifest.Some? ==> AllShaped(r.terms.manifest.value))
  }

  function Dispatch(r: State, m: Msg, fault: Fault): (s: Step)
    requires Sane(r)
    ensures r.out.closed ==> s.st.out.closed
    ensures SealsMore(r.link, s.st.link)
    ensures r.terms.manifest.Some? || !r.prog.fileOpen ==> Advances(r.prog, s.st.prog)
    ensures r.terms.advertised.Some? ==> s.st.terms.advertised.Some?
  {
    match m
    case ManifestMsg(raw) => ApplyManifest(r, raw, fault)
    case BlockData(file, block, off, payload) => OnBlockData(r, file, block, off, payload)
    case BlockHash(file, block, sha) => OnBlockHash(r, file, block, sha, fault)
    case ControlMsg(op) => Ok(OnControl(r, op))
    case Complete(digest) => OnComplete(r, digest, fault)
    case Fail(reason) => Ok(AbortWith(r, reason, false))
    case _ => Err(r, Integrity)
  }

  function Accept(r: State, counter: nat): State {
    r.(link := r.link.(recvCounter := counter + 1, accepted := r.link.accepted + [counter]))
  }

  /** A settled receiver answers a repeated Complete with a fresh Done and nothing else. */
  function ReplyDone(r: State, frame: Frame, fault: Fault): Step {
    if r.outcome == Succeeded && frame.Sealed? && r.link.recvCounter <= frame.counter && frame.msg.Complete?
    then Send(Accept(r, frame.counter), Done, fault)
    else Ok(r)
  }

  function Process(r: State, frame: Frame, fault: Fault): (s: Step)
    requires Sane(r)
    ensures r.out.closed ==> s.st.out.closed
    ensures r.terms.advertised.Some? ==> s.st.terms.advertised.Some?
    ensures r.terms.manifest.Some? || !r.prog.fileOpen ==> Advances(r.prog, s.st.prog)
    ensures SealsMore(r.link, s.st.link)
            || (frame.Sealed? && r.link.recvCounter <= frame.counter && SealsMore(Accept(r, frame.counter).link, s.st.link))
  {
    if r.outcome != Running then ReplyDone(r, frame, fault)
    else match frame
      case Forged(claimed) => if claimed < r.link.recvCounter then Ok(r) else Err(r, Integrity)
      case Sealed(counter, m) =>
        if counter < r.link.recvCounter then Ok(r) else Dispatch(Accept(r, counter), m, fault)
  }

  function Settle(s: Step): (t: State)
    ensures t.terms == s.st.terms && t.prog == s.st.prog && t.out == s.st.out && SealsMore(s.st.link, t.link)
  {
    match s
    case Ok(r) => r
    case Err(r, reason) => AbortWith(r, reason, true)
  }

  /** No call takes back a committed block, a finished file or a closed destination. */
  function Handle(r: State, frame: Frame, fault: Fault): (t: State)
    requires Sane(r)
    ensures r.out.closed ==> t.out.closed
    ensures r.terms.advertised.Some? ==> t.terms.advertised.Some?
    ensures r.terms.manifest.Some? || !r.prog.fileOpen ==> Advances(r.prog, t.prog)
    ensures SealsMore(r.link, t.link)
            || (frame.Sealed? && r.link.recvCounter <= frame.counter && SealsMore(Accept(r, frame.counter).link, t.link))
  {
    Settle(Process(r, frame, fault))
  }

  function TransportChanged(r: State): State {
    r.(intake := Intake(None, true, {}, -1))
  }

  function SetPaused(r: State, paused: bool): State {
    if r.outcome != Running || r.paused == paused then r
    else Push(r.(paused := paused), ControlMsg(if paused then Pause else Resume))
  }

  function CancelLocally(r: State): State {
    if r.outcome != Running then r
    else Push(r, ControlMsg(Cancel)).(outcome := Failed(Canceled))
  }

  // ---------------------------------------------------------------- what every call keeps

  /** Handlers rely on this and re-establish it: sane geometry, and any adopted seed was
      checked against the authenticated manifest. */
  predicate WellFormed(r: State) {
    && Sane(r)
    && (r.terms.active.Some? ==> r.terms.manifest.Some? && SeedOk(r.terms.manifest.value, r.terms.active.value))
  }

  lemma ValidatedShape(raw: Manifest)
    requires SafePath.ManifestOk(raw)
    ensures var m := SafePath.Validate(raw).value;
            AllShaped(m) && forall i :: 0 <= i < |m.files| ==> m.files[i].idx == i
  {
    hide SafePath.PathOk;
    var m := SafePath.Validate(raw).value;
    forall i | 0 <= i < |m.files| ensures Shaped(m.files[i]) && m.files[i].idx == i {
      assert SafePath.EntryOk(raw.files[i], i);
    }
  }

  lemma {:induction false} OpenNextFileWellFormed(r: State, fault: Fault)
    requires WellFormed(r) && r.terms.manifest.Some?
    ensures WellFormed(OpenNextFile(r, fault).st)
    ensures OpenNextFile(r, fault).st.terms == r.terms
    decreases |r.terms.manifest.value.files| - r.prog.fileIdx
  {
    hide Committed, AllShaped;
    if HasCurrent(r) {
      var r2 := OpenSink(EnterFile(r));
      assert WellFormed(r2);
      if FinishFile(r2, fault).Ok? {
        OpenNextFileWellFormed(FinishFile(r2, fault).st, fault);
      }
    }
  }

  lemma ApplyManifestWellFormed(r: State, raw: Manifest, fault: Fault)
    requires WellFormed(r)
    ensures WellFormed(ApplyManifest(r, raw, fault).st)
  {
    hide SafePath.ManifestOk, OpenNextFile, AllShaped;
    if SafePath.Validate(raw).Some? && r.terms.manifest == None {
      ValidatedShape(raw);
      var m := SafePath.Validate(raw).value;
      var r1 := FirstManifest(r, m);
      OpenNextFileWellFormed(r1, fault);
      if AdoptSeed(r1.terms, m).Some? {
        var t := AdoptSeed(r1.terms, m).value;
        var r2 := r1.(terms := t.(advertised := Some(Advertisement(t, m))));
        assert WellFormed(r2);
        OpenNextFileWellFormed(Push(r2, ResumeMsg(Advertisement(t, m))), fault);
      }
    }
  }

  lemma CommitBlockWellFormed(r: State, block: seq<byte>, fault: Fault)
    requires WellFormed(r) && HasCurrent(r) && 0 <= Current(r).blockSize
    ensures WellFormed(CommitBlock(r, block, fault).st)
  {
    hide OpenNextFile, WriteBlock, SeedOk, AllShaped;
    MulNonNegative(r.prog.nextBlock, Current(r).blockSize);
    var r1 := r.(prog := r.prog.(digest := r.prog.digest + block));
    var r2 := Push(Committing(r1, r.prog.nextBlock * Current(r).blockSize, block), Ack(r.prog.fileIdx, r.prog.nextBlock));
    assert WellFormed(r2);
    if FinishFile(r2, fault).Ok? {
      OpenNextFileWellFormed(FinishFile(r2, fault).st, fault);
    }
  }

  lemma CurrentShaped(r: State)
    requires HasCurrent(r) && AllShaped(r.terms.manifest.value)
    ensures Shaped(Current(r))
  {}

  lemma OnBlockHashWellFormed(r: State, file: int, block: int, sha: Sha, fault: Fault)
    requires WellFormed(r)
    ensures WellFormed(OnBlockHash(r, file, block, sha, fault).st)
  {
    hide CommitBlock, SeedOk, AllShaped;
    if r.prog.fileOpen && r.intake.asm.Some? {
      CurrentShaped(r);
      CommitBlockWellFormed(SetAsm(r, None), r.intake.asm.value.got, fault);
    }
  }

  lemma DispatchWellFormed(r: State, m: Msg, fault: Fault)
    requires WellFormed(r)
    ensures WellFormed(Dispatch(r, m, fault).st)
  {
    hide ApplyManifest, OnBlockHash, OnBlockData, OnComplete, SeedOk, AllShaped;
    match m {
      case ManifestMsg(raw) => ApplyManifestWellFormed(r, raw, fault);
      case BlockHash(file, block, sha) => OnBlockHashWellFormed(r, file, block, sha, fault);
      case _ =>
    }
  }

  lemma HandleWellFormed(r: State, frame: Frame, fault: Fault)
    requires WellFormed(r)
    ensures WellFormed(Handle(r, frame, fault))
  {
    hide Dispatch, SeedOk, AllShaped;
    if frame.Sealed? && r.outcome == Running && r.link.recvCounter <= frame.counter {
      DispatchWellFormed(Accept(r, frame.counter), frame.msg, fault);
    }
  }
}
