/** The receiver object: its handlers update its fields in place, with the block under assembly
    in a real buffer. Every method does to the object what the state machine does to its
    value. */
module ReceiverObject {
  import opened Wire
  import opened Geometry
  import M = ReceiverModel
  import SafePath

  /** A method's error, as the step of the state machine it stands for. */
  function StepOf(err: Option<Reason>, r: M.State): M.Step {
    if err.Some? then M.Err(r, err.value) else M.Ok(r)
  }

  class Receiver {
    var terms: M.Terms
    var prog: M.Progress
    var link: Link
    var out: M.Output
    var paused: bool
    var outcome: Outcome

    /** The block under assembly; the buffer is present exactly while there is one. */
    var blockBuf: array?<byte>
    var blockReceived: nat
    var assembling: nat
    var assemblingFile: nat

    var awaitingRestart: bool
    var seenAhead: set<int>
    var nackOutstanding: int

    predicate Valid()
      reads this
    {
      blockBuf != null ==> blockReceived <= blockBuf.Length
    }

    ghost function AsmView(): Option<M.Assembly>
      reads this, blockBuf
      requires Valid()
    {
      if blockBuf == null then None
      else Some(M.Assembly(assemblingFile, assembling, blockBuf.Length, blockBuf[..blockReceived]))
    }

    ghost function IntakeView(): M.Intake
      reads this, blockBuf
      requires Valid()
    {
      M.Intake(AsmView(), awaitingRestart, seenAhead, nackOutstanding)
    }

    ghost function View(): M.State
      reads this, blockBuf
      requires Valid()
    {
      M.State(terms, prog, IntakeView(), link, out, paused, outcome)
    }

    constructor (host: Option<M.ReceiverResume>, stored: map<nat, seq<byte>>)
      ensures Valid() && View() == M.Init(host, stored)
    {
      terms := M.Terms(host, None, None, None, 0);
      prog := M.Progress(0, false, 0, [], [], 0);
      link, out := FreshLink, M.Output(stored, [], false);
      paused, outcome := false, Running;
      blockBuf, blockReceived, assembling, assemblingFile := null, 0, 0, 0;
      awaitingRestart, seenAhead, nackOutstanding := false, {}, -1;
    }

    method SendControl(m: Msg, fault: M.Fault) returns (err: Option<Reason>)
      requires Valid()
      modifies this`link
      ensures Valid() && StepOf(err, View()) == M.Send(old(View()), m, fault)
    {
      link := SealNext(link, m);
      err := if fault == M.SendFault then Some(Integrity) else None;
    }

    method AbortWith(reason: Reason, notify: bool)
      requires Valid()
      modifies this`link, this`outcome
      ensures Valid() && View() == M.AbortWith(old(View()), reason, notify)
    {
      if outcome != Running { return; }
      outcome := Failed(reason);
      if notify { link := SealNext(link, Fail(reason)); }
    }

    method TransportChanged()
      requires Valid()
      modifies this`blockBuf, this`blockReceived, this`awaitingRestart, this`seenAhead, this`nackOutstanding
      ensures Valid() && View() == M.TransportChanged(old(View()))
    {
      blockBuf, blockReceived := null, 0;
      seenAhead, nackOutstanding, awaitingRestart := {}, -1, true;
    }

    // -------------------------------------------------------------- files

    method FinishCurrentFile(fault: M.Fault) returns (err: Option<Reason>)
      requires Valid() && M.HasCurrent(View())
      modifies this`prog
      ensures Valid() && StepOf(err, View()) == M.FinishFile(old(View()), fault)
    {
      if Sha(prog.digest) != terms.manifest.value.files[prog.fileIdx].digest { return Some(DigestMismatch); }
      if M.FaultAt(fault, M.AtFileClose) { return Some(M.SinkReason(fault)); }
      prog := prog.(digests := prog.digests + [Sha(prog.digest)]);
      prog := prog.(fileIdx := prog.fileIdx + 1, fileOpen := false, digest := []);
      err := None;
    }

    method EnterFile()
      requires Valid() && M.HasCurrent(View())
      modifies this`prog, this`seenAhead, this`nackOutstanding
      ensures Valid() && View() == M.EnterFile(old(View()))
    {
      var f := terms.manifest.value.files[prog.fileIdx];
      prog := prog.(fileOpen := true, nextBlock := 0, digest := []);
      if terms.active.Some? && f.idx in terms.active.value.files {
        var p := terms.active.value.files[f.idx];
        prog := prog.(nextBlock := p.haveBlocks);
        if p.seed.Some? { prog := prog.(digest := p.seed.value); }
      }
      if prog.nextBlock >= f.blocks {
        prog := prog.(acknowledged := prog.acknowledged + f.size);
      } else {
        prog := prog.(acknowledged := prog.acknowledged + prog.nextBlock * f.blockSize);
      }
      seenAhead, nackOutstanding := {}, -1;
    }

    /** Opens files in order until one still needs blocks. */
    method OpenNextFile(fault: M.Fault) returns (err: Option<Reason>)
      requires Valid() && terms.manifest.Some?
      modifies this`prog, this`seenAhead, this`nackOutstanding, this`out
      ensures Valid() && StepOf(err, View()) == M.OpenNextFile(old(View()), fault)
    {
      hide M.EnterFile, M.FinishFile;
      while prog.fileIdx < |terms.manifest.value.files|
        invariant Valid()
        invariant M.OpenNextFile(View(), fault) == M.OpenNextFile(old(View()), fault)
        decreases |terms.manifest.value.files| - prog.fileIdx
      {
        ghost var before := View();
        EnterFile();
        EnterStays(before);
        if M.FaultAt(fault, M.AtOpen) { return Some(M.SinkReason(fault)); }
        if prog.fileIdx !in out.sinks { out := out.(sinks := out.sinks[prog.fileIdx := []]); }
        ghost var entered := View();
        if prog.nextBlock < terms.manifest.value.files[prog.fileIdx].blocks { return None; }
        err := FinishCurrentFile(fault);
        FinishMoves(entered, fault);
        if err.Some? { return; }
      }
      prog := prog.(fileOpen := false, digest := []);
      err := None;
    }

    // -------------------------------------------------------------- the manifest

    /** The high-water marks to advertise, file by file. */
    method BuildMarks(files: seq<FileEntry>) returns (marks: seq<ResumeFileState>)
      ensures marks == M.Marks(terms, files)
    {
      marks := [];
      for i := 0 to |files|
        invariant |marks| == i && forall k :: 0 <= k < i ==> marks[k] == M.Marks(terms, files)[k]
      {
        var have := 0;
        if terms.active.Some? && files[i].idx in terms.active.value.files {
          have := terms.active.value.files[files[i].idx].haveBlocks;
        }
        marks := marks + [ResumeFileState(files[i].idx, have)];
      }
    }

    /** The bytes an adopted seed lets the transfer reuse. */
    method CountReused(files: seq<FileEntry>) returns (total: int)
      ensures total == M.ReusedBytes(terms, files)
    {
      total := 0;
      for i := 0 to |files|
        invariant total == M.ReusedBytes(terms, files[..i])
      {
        assert files[..i + 1][..i] == files[..i];
        var f, have := files[i], 0;
        if terms.active.Some? && f.idx in terms.active.value.files { have := terms.active.value.files[f.idx].haveBlocks; }
        if have > 0 {
          if have >= f.blocks { total := total + f.size; } else { total := total + have * f.blockSize; }
        }
      }
      assert files[..|files|] == files;
    }

    /** Adopts the host's seed when it is for this transfer; refuses one that does not check. */
    method AdoptSeed(m: Manifest) returns (ok: bool)
      requires Valid()
      modifies this`terms
      ensures Valid() && ok == M.AdoptSeed(old(terms), m).Some? && terms.manifest == old(terms).manifest
      ensures View() == if ok then old(View()).(terms := M.AdoptSeed(old(terms), m).value) else old(View())
    {
      if terms.host == None || terms.host.value.transferId != m.transferId { return true; }
      var seedOk := CheckSeed(m, terms.host.value);
      if !seedOk { return false; }
      terms := terms.(active := terms.host);
      var total := CountReused(m.files);
      terms := terms.(reused := total);
      ok := true;
    }

    /** The first manifest: prepare, adopt the seed, advertise, open the first file. */
    method TakeManifest(m: Manifest, fault: M.Fault) returns (err: Option<Reason>)
      requires Valid() && terms.manifest == None
      modifies this
      ensures Valid() && blockBuf == old(blockBuf)
      ensures SafePath.Validate(m) == Some(m) ==> StepOf(err, View()) == M.ApplyManifest(old(View()), m, fault)
    {
      hide M.OpenNextFile, M.AdoptSeed, SafePath.Validate, M.Advertisement;
      if M.FaultAt(fault, M.AtPrepare) { return Some(M.SinkReason(fault)); }
      terms := terms.(manifest := Some(m));
      prog := prog.(digests := []);
      awaitingRestart := true;
      if m.transferId != [] {
        var adopted := AdoptSeed(m);
        if !adopted { return Some(SinkError); }
        var marks := BuildMarks(m.files);
        var rs := ResumeState(m.transferId, Some(Fingerprint(m)), marks);
        assert rs == M.Advertisement(terms, m) by { AdvertIs(terms, m); }
        terms := terms.(advertised := Some(rs));
        err := SendControl(ResumeMsg(rs), fault);
        if err.Some? { return; }
      }
      err := OpenNextFile(fault);
    }

    method ApplyManifest(raw: Manifest, fault: M.Fault) returns (err: Option<Reason>)
      requires Valid()
      modifies this
      ensures Valid() && blockBuf == old(blockBuf) && StepOf(err, View()) == M.ApplyManifest(old(View()), raw, fault)
    {
      hide M.OpenNextFile, M.AdoptSeed, M.Advertisement, SafePath.ManifestOk;
      var v := SafePath.ValidateManifest(raw);
      if v == None { return Some(Integrity); }
      if terms.manifest.Some? {
        if v.value != terms.manifest.value { return Some(Integrity); }
        if v.value.transferId != [] && terms.advertised.Some? {
          err := SendControl(ResumeMsg(terms.advertised.value), fault);
          return;
        }
        return None;
      }
      SafePath.ValidateIdempotent(raw);
      err := TakeManifest(v.value, fault);
    }

    // -------------------------------------------------------------- blocks

    /** Copies a fragment into the buffer behind what is already there. */
    method Append(payload: seq<byte>)
      requires Valid() && blockBuf != null && blockReceived + |payload| <= blockBuf.Length
      modifies this`blockReceived, blockBuf
      ensures Valid() && blockBuf == old(blockBuf)
      ensures View() == M.SetAsm(old(View()), Some(old(AsmView()).value.(got := old(AsmView()).value.got + payload)))
    {
      var buf, off := blockBuf, blockReceived;
      ghost var before := buf[..off];
      forall i | 0 <= i < |payload| { buf[off + i] := payload[i]; }
      blockReceived := off + |payload|;
      assert buf[..off + |payload|] == before + payload;
    }

    method StartBlock(file: nat, block: nat)
      requires Valid() && M.Sane(View()) && terms.manifest.Some? && file < |terms.manifest.value.files|
      requires block < terms.manifest.value.files[file].blocks
      modifies this`blockBuf, this`blockReceived, this`assembling, this`assemblingFile, this`awaitingRestart
      ensures Valid() && fresh(blockBuf)
      ensures View() == old(View()).(intake := old(View()).intake.(
                asm := Some(M.Assembly(file, block, BlockLength(terms.manifest.value.files[file], block), [])),
                awaitingRestart := false))
    {
      var f := terms.manifest.value.files[file];
      BlockLengthIsPos(f, block);
      var size := if f.blockSize < MAX_MANIFEST_BLOCK_BYTES then f.blockSize else MAX_MANIFEST_BLOCK_BYTES;
      var rem := f.size - block * f.blockSize;
      if size > rem { size := rem; }
      assert size == BlockLength(f, block);
      assemblingFile, assembling, blockReceived, awaitingRestart := file, block, 0, false;
      blockBuf := new byte[size](_ => 0);
    }

    method OnBlockData(file: nat, block: nat, off: nat, payload: seq<byte>) returns (err: Option<Reason>)
      requires Valid() && M.Sane(View())
      modifies this, blockBuf
      ensures Valid() && StepOf(err, View()) == M.OnBlockData(old(View()), file, block, off, payload)
    {
      hide BlockLength, M.AllShaped;
      if terms.manifest == None { return None; }
      var files := terms.manifest.value.files;
      if file >= |files| || file > prog.fileIdx { return Some(Integrity); }
      if block >= files[file].blocks { return Some(Integrity); }
      if awaitingRestart && off != 0 { return None; }
      if off == 0 {
        if blockBuf != null { return Some(Integrity); }
        StartBlock(file, block);
      }
      if blockBuf == null || assemblingFile != file || assembling != block { return Some(Integrity); }
      if off != blockReceived || off + |payload| > blockBuf.Length { return Some(Integrity); }
      Append(payload);
      err := None;
    }

    method RequestMissing(fault: M.Fault) returns (err: Option<Reason>)
      requires Valid()
      modifies this`nackOutstanding, this`link
      ensures Valid() && StepOf(err, View()) == M.RequestMissing(old(View()), fault)
    {
      if nackOutstanding == prog.nextBlock { return None; }
      nackOutstanding := prog.nextBlock;
      err := SendControl(Nack(prog.fileIdx, prog.nextBlock), fault);
    }

    /** The sink's write: the block lands at its offset. */
    method WriteSink(offset: nat, block: seq<byte>)
      requires Valid()
      modifies this`out
      ensures Valid() && out == M.WriteBlock(old(out), prog.fileIdx, prog.nextBlock, offset, block)
    {
      var was := if prog.fileIdx in out.sinks then out.sinks[prog.fileIdx] else [];
      out := out.(sinks := out.sinks[prog.fileIdx := M.WriteAt(was, offset, block)]);
      out := out.(writes := out.writes + [M.Write(prog.fileIdx, prog.nextBlock, offset, block)]);
    }

    /** The write and the progress it makes. */
    method Store(offset: nat, block: seq<byte>)
      requires Valid()
      modifies this`prog, this`nackOutstanding, this`out
      ensures Valid() && View() == M.Committing(old(View()), offset, block)
      ensures prog.nextBlock == old(prog).nextBlock + 1 && prog.fileIdx == old(prog).fileIdx
    {
      hide M.WriteBlock;
      WriteSink(offset, block);
      prog := prog.(nextBlock := prog.nextBlock + 1);
      nackOutstanding := -1;
      prog := prog.(acknowledged := prog.acknowledged + |block|);
    }

    method AfterAck(fault: M.Fault) returns (err: Option<Reason>)
      requires Valid() && M.HasCurrent(View())
      modifies this`prog, this`seenAhead, this`nackOutstanding, this`out, this`link
      ensures Valid() && StepOf(err, View()) == M.AfterAck(old(View()), fault)
    {
      hide M.OpenNextFile;
      if prog.nextBlock == terms.manifest.value.files[prog.fileIdx].blocks {
        err := FinishCurrentFile(fault);
        if err.Some? { return; }
        err := OpenNextFile(fault);
        return;
      }
      if prog.nextBlock in seenAhead {
        seenAhead := seenAhead - {prog.nextBlock};
        err := RequestMissing(fault);
        return;
      }
      err := None;
    }

    method CommitBlock(block: seq<byte>, fault: M.Fault) returns (err: Option<Reason>)
      requires Valid() && M.HasCurrent(View()) && 0 <= prog.nextBlock && 0 <= M.Current(View()).blockSize
      modifies this`prog, this`seenAhead, this`nackOutstanding, this`out, this`link
      ensures Valid() && StepOf(err, View()) == M.CommitBlock(old(View()), block, fault)
    {
      hide M.AfterAck, M.Committing;
      MulNonNegative(prog.nextBlock, terms.manifest.value.files[prog.fileIdx].blockSize);
      var offset: nat := prog.nextBlock * terms.manifest.value.files[prog.fileIdx].blockSize;
      prog := prog.(digest := prog.digest + block);
      if M.FaultAt(fault, M.AtWrite) { return Some(M.SinkReason(fault)); }
      Store(offset, block);
      err := SendControl(Ack(prog.fileIdx, prog.nextBlock - 1), fault);
      if err.Some? { return; }
      err := AfterAck(fault);
    }

    /** What a verified block leads to: another ack, a nack, or a commit. */
    method OnVerified(file: int, block: int, data: seq<byte>, fault: M.Fault) returns (err: Option<Reason>)
      requires Valid() && M.Sane(View())
      modifies this`prog, this`seenAhead, this`nackOutstanding, this`out, this`link
      ensures Valid() && StepOf(err, View()) == M.OnVerified(old(View()), file, block, data, fault)
    {
      hide M.CommitBlock;
      if file < prog.fileIdx {
        err := SendControl(Ack(file, block), fault);
        return;
      }
      if !prog.fileOpen || file != prog.fileIdx { return Some(Integrity); }
      if block < prog.nextBlock {
        err := SendControl(Ack(file, block), fault);
        return;
      }
      if block > prog.nextBlock {
        if |seenAhead| < DEFAULT_INFLIGHT_BLOCKS { seenAhead := seenAhead + {block}; }
        err := RequestMissing(fault);
        return;
      }
      err := CommitBlock(data, fault);
    }

    method OnBlockHash(file: int, block: int, sha: Sha, fault: M.Fault) returns (err: Option<Reason>)
      requires Valid() && M.Sane(View())
      modifies this
      ensures Valid() && StepOf(err, View()) == M.OnBlockHash(old(View()), file, block, sha, fault)
      ensures blockBuf == null || blockBuf == old(blockBuf)
    {
      hide M.OnVerified, M.AllShaped;
      if blockBuf == null && awaitingRestart { return None; }
      if terms.manifest == None { return None; }
      if blockBuf == null { return Some(Integrity); }
      if file != assemblingFile || block != assembling { return Some(Integrity); }
      if blockReceived != blockBuf.Length { return Some(Integrity); }
      var data := blockBuf[..];
      assert blockBuf[..blockReceived] == data;
      if Sha(data) != sha { return Some(Integrity); }
      blockBuf, blockReceived := null, 0;
      err := OnVerified(file, block, data, fault);
    }

    // -------------------------------------------------------------- control

    method OnComplete(digest: SetDigest, fault: M.Fault) returns (err: Option<Reason>)
      requires Valid() && M.Sane(View())
      modifies this`out, this`link, this`outcome, this`nackOutstanding
      ensures Valid() && StepOf(err, View()) == M.OnComplete(old(View()), digest, fault)
    {
      hide CompletionDigest;
      if terms.manifest == None { return Some(Integrity); }
      var files := terms.manifest.value.files;
      if prog.fileOpen && prog.nextBlock != files[prog.fileIdx].blocks {
        err := RequestMissing(fault);
        return;
      }
      if prog.fileIdx != |files| { return Some(Integrity); }
      if digest != CompletionDigest(files) { return Some(DigestMismatch); }
      if M.FaultAt(fault, M.AtDestClose) { return Some(M.SinkReason(fault)); }
      out := out.(closed := true);
      err := SendControl(Done, fault);
      if err.Some? { return; }
      outcome := Succeeded;
    }

    method Dispatch(m: Msg, fault: M.Fault) returns (err: Option<Reason>)
      requires Valid() && M.Sane(View())
      modifies this, blockBuf
      ensures Valid() && StepOf(err, View()) == M.Dispatch(old(View()), m, fault)
    {
      hide M.ApplyManifest, M.OnBlockData, M.OnBlockHash, M.OnComplete, M.AllShaped;
      match m {
        case ManifestMsg(raw) => err := ApplyManifest(raw, fault);
        case BlockData(file, block, off, payload) => err := OnBlockData(file, block, off, payload);
        case BlockHash(file, block, sha) => err := OnBlockHash(file, block, sha, fault);
        case ControlMsg(op) =>
          match op {
            case Pause => paused := true;
            case Resume => paused := false;
            case Cancel => AbortWith(Canceled, false);
          }
          err := None;
        case Complete(digest) => err := OnComplete(digest, fault);
        case Fail(reason) =>
          AbortWith(reason, false);
          err := None;
        case _ => err := Some(Integrity);
      }
    }

    method Process(frame: Frame, fault: M.Fault) returns (err: Option<Reason>)
      requires Valid() && M.Sane(View())
      modifies this, blockBuf
      ensures Valid() && StepOf(err, View()) == M.Process(old(View()), frame, fault)
    {
      hide M.Dispatch, M.AllShaped;
      if outcome != Running {
        if outcome != Succeeded || frame.Forged? { return None; }
        if frame.counter < link.recvCounter || !frame.msg.Complete? { return None; }
        link := link.(recvCounter := frame.counter + 1, accepted := link.accepted + [frame.counter]);
        err := SendControl(Done, fault);
        return;
      }
      match frame {
        case Forged(claimed) => err := if claimed < link.recvCounter then None else Some(Integrity);
        case Sealed(counter, m) =>
          if counter < link.recvCounter { return None; }
          link := link.(recvCounter := counter + 1, accepted := link.accepted + [counter]);
          err := Dispatch(m, fault);
      }
    }

    /** Consumes one frame; whatever goes wrong settles the receiver and tells the sender. */
    method Handle(frame: Frame, fault: M.Fault)
      requires Valid() && M.Sane(View())
      modifies this, blockBuf
      ensures Valid() && View() == M.Handle(old(View()), frame, fault)
    {
      hide M.Process, M.AllShaped;
      var err := Process(frame, fault);
      if err.Some? { AbortWith(err.value, true); }
    }

    method SetPaused(pause: bool)
      requires Valid()
      modifies this`paused, this`link
      ensures Valid() && View() == M.SetPaused(old(View()), pause)
    {
      if outcome != Running || paused == pause { return; }
      paused := pause;
      link := SealNext(link, ControlMsg(if pause then Pause else Resume));
    }

    method CancelLocally()
      requires Valid()
      modifies this`link, this`outcome
      ensures Valid() && View() == M.CancelLocally(old(View()))
    {
      if outcome != Running { return; }
      link := SealNext(link, ControlMsg(Cancel));
      AbortWith(Canceled, false);
    }
  }

  lemma AdvertIs(t: M.Terms, m: Manifest)
    ensures M.Advertisement(t, m) == ResumeState(m.transferId, Some(Fingerprint(m)), M.Marks(t, m.files))
  {}

  /** The checks a host's seed has to pass, as the receiver makes them. */
  method CheckSeed(m: Manifest, h: M.ReceiverResume) returns (ok: bool)
    ensures ok <==> M.SeedOk(m, h)
  {
    if !LowerHex(h.transferId, 32) { return false; }
    if h.fingerprint != Some(Fingerprint(m)) { return false; }
    if |h.files| != |m.files| { return false; }
    for i := 0 to |m.files|
      invariant forall k :: 0 <= k < i ==>
                  m.files[k].idx in h.files && 0 <= h.files[m.files[k].idx].haveBlocks <= m.files[k].blocks
    {
      var f := m.files[i];
      if f.idx !in h.files { return false; }
      if h.files[f.idx].haveBlocks < 0 || h.files[f.idx].haveBlocks > f.blocks { return false; }
    }
    ok := true;
  }

  lemma FinishMoves(r: M.State, fault: M.Fault)
    requires M.HasCurrent(r)
    ensures M.FinishFile(r, fault).Ok? ==> M.FinishFile(r, fault).st.prog.fileIdx == r.prog.fileIdx + 1
  {}

  lemma EnterStays(r: M.State)
    requires M.HasCurrent(r)
    ensures M.EnterFile(r).prog.fileIdx == r.prog.fileIdx && M.EnterFile(r).terms == r.terms
  {}
}
