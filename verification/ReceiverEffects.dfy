/** Exactly what a running receiver with a sound sink does with each kind of frame. */
module ReceiverEffects {
  import opened Wire
  import opened Geometry
  import opened ReceiverModel
  import A = ReceiverAnswers
  import SafePath

  /** An open file still needs a block. */
  predicate Needy(r: State) { r.prog.fileOpen ==> HasCurrent(r) && r.prog.nextBlock < Current(r).blocks }

  /** Nothing but the intake and what was sealed differs. */
  predicate OnlySealed(r: State, t: State, msgs: seq<Msg>) {
    && t.terms == r.terms && t.prog == r.prog && t.out == r.out && t.outcome == r.outcome
    && t.link.sent == r.link.sent + msgs && t.link.recvCounter == r.link.recvCounter
  }

  // ---------------------------------------------------------------- hashes

  /** A verified block the receiver has already got past. */
  predicate Repeated(r: State, f: int, b: int) {
    f < r.prog.fileIdx || (f == r.prog.fileIdx && r.prog.fileOpen && b < r.prog.nextBlock)
  }

  /** The next block of the open file was committed: acked, and the following one asked for if
      it had come early; the last one ends the file. */
  predicate Committed1(r: State, t: State) {
    var f, n := r.prog.fileIdx, r.prog.nextBlock;
    if r.prog.nextBlock + 1 < CurrentBlocks(r) then
      && t.prog.fileIdx == f && t.prog.fileOpen && t.prog.nextBlock == n + 1
      && t.intake.seenAhead == r.intake.seenAhead - {n + 1}
      && t.intake.nackOutstanding == (if n + 1 in r.intake.seenAhead then n + 1 else -1)
      && t.link.sent == r.link.sent + [Ack(f, n)] + (if n + 1 in r.intake.seenAhead then [Nack(f, n + 1)] else [])
    else
      && t.prog.fileIdx > f && (t.intake.seenAhead == {} || t.intake.seenAhead == r.intake.seenAhead)
      && t.link.sent == r.link.sent + [Ack(f, n)]
  }

  function CurrentBlocks(r: State): int { if HasCurrent(r) then Current(r).blocks else 0 }

  predicate HashDone(r: State, f: int, b: int, t: State) {
    var n := r.prog.nextBlock;
    && t.terms == r.terms && t.outcome == r.outcome && t.link.recvCounter == r.link.recvCounter
    && t.intake.asm == None && t.intake.awaitingRestart == r.intake.awaitingRestart
    && if Repeated(r, f, b) then
         OnlySealed(r, t, [Ack(f, b)]) && t.intake.seenAhead == r.intake.seenAhead
         && t.intake.nackOutstanding == r.intake.nackOutstanding
       else
         && f == r.prog.fileIdx && r.prog.fileOpen && n <= b
         && if b > n then
              && OnlySealed(r, t, if r.intake.nackOutstanding == n then [] else [Nack(f, n)])
              && t.intake.seenAhead == SeeAhead(r.intake, b).seenAhead && t.intake.nackOutstanding == n
            else Committed1(r, t)
  }

  /** Opening the next files on the way out of one. */
  lemma {:induction false} OpenedIntake(r: State)
    requires r.terms.manifest.Some? && OpenNextFile(r, NoFault).Ok?
    ensures var t := OpenNextFile(r, NoFault).st;
            && t.prog.fileIdx >= r.prog.fileIdx
            && (t.intake.seenAhead == {} || t.intake.seenAhead == r.intake.seenAhead)
    decreases |r.terms.manifest.value.files| - r.prog.fileIdx
  {
    hide Committed;
    if HasCurrent(r) {
      var r2 := OpenSink(EnterFile(r));
      if r2.prog.nextBlock >= Current(r2).blocks { OpenedIntake(FinishFile(r2, NoFault).st); }
    }
  }

  lemma AfterAckDone(r: State)
    requires HasCurrent(r) && r.prog.fileOpen && AfterAck(r, NoFault).Ok? && r.prog.nextBlock <= Current(r).blocks
    requires r.intake.nackOutstanding == -1 && 0 < r.prog.nextBlock
    ensures var t := AfterAck(r, NoFault).st;
            && t.terms == r.terms && t.outcome == r.outcome && t.link.recvCounter == r.link.recvCounter
            && t.intake.asm == r.intake.asm && t.intake.awaitingRestart == r.intake.awaitingRestart
            && if r.prog.nextBlock < Current(r).blocks then
                 && t.prog == r.prog && t.intake.seenAhead == r.intake.seenAhead - {r.prog.nextBlock}
                 && t.intake.nackOutstanding == (if r.prog.nextBlock in r.intake.seenAhead then r.prog.nextBlock else -1)
                 && t.link.sent == r.link.sent + (if r.prog.nextBlock in r.intake.seenAhead
                                                  then [Nack(r.prog.fileIdx, r.prog.nextBlock)] else [])
               else
                 && t.prog.fileIdx > r.prog.fileIdx && t.link.sent == r.link.sent
                 && (t.intake.seenAhead == {} || t.intake.seenAhead == r.intake.seenAhead)
  {
    hide OpenNextFile;
    if r.prog.nextBlock == Current(r).blocks {
      OpenedIntake(FinishFile(r, NoFault).st);
    }
  }

  lemma CommitDone(r: State, data: seq<byte>)
    requires Sane(r) && HasCurrent(r) && r.prog.fileOpen && Needy(r) && 0 <= Current(r).blockSize
    requires CommitBlock(r, data, NoFault).Ok? && r.intake.asm == None
    ensures var t := CommitBlock(r, data, NoFault).st;
            && Committed1(r, t) && t.terms == r.terms && t.outcome == r.outcome && t.link.recvCounter == r.link.recvCounter
            && t.intake.asm == None && t.intake.awaitingRestart == r.intake.awaitingRestart
  {
    hide AfterAck, WriteBlock, AllShaped;
    MulNonNegative(r.prog.nextBlock, Current(r).blockSize);
    var r1 := Committing(r.(prog := r.prog.(digest := r.prog.digest + data)), r.prog.nextBlock * Current(r).blockSize, data);
    AfterAckDone(Push(r1, Ack(r.prog.fileIdx, r.prog.nextBlock)));
  }

  lemma HashEffect(r: State, f: int, b: int, sha: Sha)
    requires Sane(r) && Needy(r) && r.terms.manifest.Some? && r.intake.asm.Some?
    requires OnBlockHash(r, f, b, sha, NoFault).Ok?
    ensures HashDone(r, f, b, OnBlockHash(r, f, b, sha, NoFault).st)
    ensures f == r.intake.asm.value.file && b == r.intake.asm.value.block
  {
    hide CommitBlock, AllShaped, Committed1;
    var r1 := SetAsm(r, None);
    if f == r.prog.fileIdx && r.prog.fileOpen && b == r.prog.nextBlock {
      assert Shaped(Current(r)) by { CurrentShaped(r); }
      CommitDone(r1, r.intake.asm.value.got);
      CommittedSame(r, r1, CommitBlock(r1, r.intake.asm.value.got, NoFault).st);
    }
  }

  lemma CommittedSame(r: State, r1: State, t: State)
    requires Committed1(r1, t) && r1 == SetAsm(r, None)
    ensures Committed1(r, t)
  {}

  lemma CurrentShaped(r: State)
    requires Sane(r) && HasCurrent(r)
    ensures Shaped(Current(r))
  {}

  // ---------------------------------------------------------------- other frames

  /** Without a block in hand a hash changes nothing, or is refused. */
  lemma HashSkipped(r: State, f: int, b: int, sha: Sha)
    requires Sane(r) && r.intake.asm == None && r.intake.awaitingRestart
    ensures OnBlockHash(r, f, b, sha, NoFault) == Ok(r)
  {}

  lemma DataEffect(r: State, f: nat, b: nat, off: nat, payload: seq<byte>)
    requires r.terms.manifest.Some? && OnBlockData(r, f, b, off, payload).Ok?
    ensures var t := OnBlockData(r, f, b, off, payload).st;
            && OnlySealed(r, t, []) && t.intake.seenAhead == r.intake.seenAhead
            && t.intake.nackOutstanding == r.intake.nackOutstanding
            && if r.intake.awaitingRestart && off != 0 then t == r
               else && t.intake.asm.Some? && !t.intake.awaitingRestart
                    && t.intake.asm.value.file == f && t.intake.asm.value.block == b
                    && |t.intake.asm.value.got| == off + |payload|
  {}

  /** The first manifest of a transfer: opened, and answered if it has a resume identity. */
  lemma FirstManifestEffect(r: State, m: Manifest)
    requires r.terms.manifest == None && SafePath.Validate(m) == Some(m) && ApplyManifest(r, m, NoFault).Ok?
    ensures var t := ApplyManifest(r, m, NoFault).st;
            && t.terms.manifest == Some(m) && t.outcome == r.outcome && t.link.recvCounter == r.link.recvCounter
            && t.intake.asm == r.intake.asm && t.intake.awaitingRestart
            && (t.intake.seenAhead == {} || t.intake.seenAhead == r.intake.seenAhead)
            && (if m.transferId == [] then t.link.sent == r.link.sent
                else exists rs :: t.link.sent == r.link.sent + [ResumeMsg(rs)])
  {
    hide SafePath.Validate, OpenNextFile, SeedOk, Advertisement, ReusedBytes;
    var r1 := FirstManifest(r, m);
    if m.transferId == [] {
      OpenedIntake(r1);
    } else {
      var t := AdoptSeed(r1.terms, m).value;
      var rs := Advertisement(t, m);
      var r2 := Push(r1.(terms := t.(advertised := Some(rs))), ResumeMsg(rs));
      OpenedIntake(r2);
      assert OpenNextFile(r2, NoFault).st.link.sent == r.link.sent + [ResumeMsg(rs)];
    }
  }

  lemma ManifestAgain(r: State, m: Manifest)
    requires r.terms.manifest == Some(m) && SafePath.Validate(m) == Some(m)
    requires m.transferId != [] ==> r.terms.advertised.Some?
    ensures var s := ApplyManifest(r, m, NoFault);
            && s.Ok? && s.st.intake == r.intake
            && OnlySealed(r, s.st, if m.transferId == [] then [] else [ResumeMsg(r.terms.advertised.value)])
  {
    hide SafePath.Validate;
  }

  /** With a sound sink a call can only end in an integrity error, a digest mismatch, or the
      refusal of a seed that does not fit the first manifest. */
  lemma DispatchReasons(r: State, m: Msg)
    requires Sane(r) && Dispatch(r, m, NoFault).Err?
    ensures var reason := Dispatch(r, m, NoFault).reason;
            || reason == Integrity || reason == DigestMismatch
            || (&& m.ManifestMsg? && r.terms.manifest == None && SafePath.Validate(m.manifest).Some?
                && SafePath.Validate(m.manifest).value.transferId != []
                && AdoptSeed(r.terms, SafePath.Validate(m.manifest).value) == None)
  {
    hide OnBlockHash, OnBlockData, SafePath.Validate, OpenNextFile, AllShaped, CompletionDigest, SeedOk,
      Advertisement, ReusedBytes;
    match m {
      case BlockHash(f, b, sha) => HashReasons(r, f, b, sha);
      case BlockData(f, b, off, p) => DataReasons(r, f, b, off, p);
      case ManifestMsg(raw) => ManifestReasons(r, raw);
      case _ =>
    }
  }

  lemma DataReasons(r: State, f: nat, b: nat, off: nat, p: seq<byte>)
    requires OnBlockData(r, f, b, off, p).Err?
    ensures OnBlockData(r, f, b, off, p).reason == Integrity
  {}

  lemma HashReasons(r: State, f: int, b: int, sha: Sha)
    requires Sane(r) && OnBlockHash(r, f, b, sha, NoFault).Err?
    ensures var reason := OnBlockHash(r, f, b, sha, NoFault).reason; reason == Integrity || reason == DigestMismatch
  {
    hide AllShaped, AfterAck, WriteBlock;
    if r.prog.fileOpen && r.intake.asm.Some? && r.terms.manifest.Some? {
      assert Shaped(Current(r)) by { CurrentShaped(r); }
      MulNonNegative(r.prog.nextBlock, Current(r).blockSize);
      var data, r0 := r.intake.asm.value.got, SetAsm(r, None);
      var r1 := Committing(r0.(prog := r0.prog.(digest := r0.prog.digest + data)),
                           r.prog.nextBlock * Current(r).blockSize, data);
      AfterAckReasons(Push(r1, Ack(r.prog.fileIdx, r.prog.nextBlock)));
    }
  }

  lemma AfterAckReasons(r: State)
    requires HasCurrent(r)
    ensures AfterAck(r, NoFault).Err? ==> AfterAck(r, NoFault).reason == DigestMismatch
  {
    hide OpenNextFile;
    if FinishFile(r, NoFault).Ok? { A.OpenSame(FinishFile(r, NoFault).st); }
  }

  lemma ManifestReasons(r: State, raw: Manifest)
    requires ApplyManifest(r, raw, NoFault).Err?
    ensures var reason, v := ApplyManifest(r, raw, NoFault).reason, SafePath.Validate(raw);
            || reason == Integrity || reason == DigestMismatch
            || (r.terms.manifest == None && v.Some? && v.value.transferId != [] && AdoptSeed(r.terms, v.value) == None)
  {
    hide SafePath.Validate, OpenNextFile, SeedOk, Advertisement, ReusedBytes;
    if SafePath.Validate(raw).Some? && r.terms.manifest == None {
      var m := SafePath.Validate(raw).value;
      var r1 := FirstManifest(r, m);
      A.OpenSame(r1);
      if AdoptSeed(r1.terms, m).Some? {
        var rs := Advertisement(AdoptSeed(r1.terms, m).value, m);
        A.OpenSame(Push(r1.(terms := AdoptSeed(r1.terms, m).value.(advertised := Some(rs))), ResumeMsg(rs)));
      }
    }
  }
}
