/** Which frames the receiver answers, told from its state and the frame alone. A failing send
    of an answer shows as an integrity error; where there is no answer it cannot show. */
module ReceiverAnswers {
  import opened Wire
  import opened Geometry
  import SafePath
  import R = ReceiverModel

  // ---------------------------------------------------------------- the guard

  /** A manifest is answered with a resume_state: the first one of a transfer with a resume
      identity whose host seed, if it has one, is sound, and every later copy. */
  predicate AnswersManifest(r: R.State, raw: Manifest) {
    var m := SafePath.Validate(raw);
    && m.Some? && m.value.transferId != []
    && match r.terms.manifest
       case Some(known) => m.value == known && r.terms.advertised.Some?
       case None => r.terms.host.Some? && r.terms.host.value.transferId == m.value.transferId
                    ==> R.SeedOk(m.value, r.terms.host.value)
  }

  /** The current file still needs a block that has not been asked for since it was last reached. */
  predicate MayAsk(r: R.State) { r.intake.nackOutstanding != r.prog.nextBlock }

  /** The hash of a fully assembled block: acknowledged at once for an earlier file or a block up
      to the next one, and answered by a request for the next one if the block came early. */
  predicate AnswersHash(r: R.State, file: int, block: int, sha: Sha) {
    && r.terms.manifest.Some? && r.intake.asm.Some?
    && var a := r.intake.asm.value;
    && a.file == file && a.block == block && |a.got| == a.size && Sha(a.got) == sha
    && (|| file < r.prog.fileIdx
        || (file == r.prog.fileIdx && r.prog.fileOpen && (block <= r.prog.nextBlock || MayAsk(r))))
  }

  predicate Unfinished(r: R.State)
    requires R.Sane(r)
  {
    r.prog.fileOpen && r.prog.nextBlock != R.Current(r).blocks
  }

  /** Complete is answered by a request for the next block, or by Done past the last file. */
  predicate AnswersComplete(r: R.State, digest: SetDigest)
    requires R.Sane(r)
  {
    && r.terms.manifest.Some?
    && if Unfinished(r) then MayAsk(r)
       else
         var files := r.terms.manifest.value.files;
         r.prog.fileIdx == |files| && digest == CompletionDigest(files)
  }

  /** Whether a running receiver has an answer to a frame. */
  predicate Answers(r: R.State, frame: Frame)
    requires R.Sane(r)
  {
    && r.outcome == Running && frame.Sealed? && r.link.recvCounter <= frame.counter
    && match frame.msg
       case ManifestMsg(raw) => AnswersManifest(r, raw)
       case BlockHash(file, block, sha) => AnswersHash(r, file, block, sha)
       case Complete(digest) => AnswersComplete(r, digest)
       case _ => false
  }

  // ---------------------------------------------------------------- the guard is exact

  /** The two steps of a call without and with a failing send: with an answer the second ends in
      an integrity error that the first does not end in, without one they are the same. */
  predicate Shows(answered: bool, ok: R.Step, broken: R.Step) {
    if answered then
      && broken.Err? && broken.reason == Integrity && broken.st.outcome == Running
      && (ok.Ok? ==> ok.st.outcome != Failed(Integrity))
      && (ok.Err? ==> ok.reason != Integrity && ok.st.outcome == Running)
    else ok == broken
  }

  /** Opening files sends nothing and, with a sound sink, can fail on a digest only. */
  lemma {:induction false} OpenSame(r: R.State)
    requires r.terms.manifest.Some?
    ensures R.OpenNextFile(r, R.SendFault) == R.OpenNextFile(r, R.NoFault)
    ensures R.OpenNextFile(r, R.NoFault).Err? ==> R.OpenNextFile(r, R.NoFault).reason == DigestMismatch
    decreases |r.terms.manifest.value.files| - r.prog.fileIdx
  {
    hide Committed;
    if R.HasCurrent(r) {
      var r2 := R.OpenSink(R.EnterFile(r));
      if R.FinishFile(r2, R.NoFault).Ok? { OpenSame(R.FinishFile(r2, R.NoFault).st); }
    }
  }

  lemma ManifestAnswer(r: R.State, raw: Manifest)
    requires r.outcome == Running
    ensures Shows(AnswersManifest(r, raw), R.ApplyManifest(r, raw, R.NoFault), R.ApplyManifest(r, raw, R.SendFault))
  {
    hide SafePath.Validate, R.OpenNextFile, R.SeedOk, R.Advertisement, R.ReusedBytes;
    if SafePath.Validate(raw).Some? && r.terms.manifest == None {
      var m := SafePath.Validate(raw).value;
      var r1 := R.FirstManifest(r, m);
      OpenSame(r1);
      if R.AdoptSeed(r1.terms, m).Some? {
        var rs := R.Advertisement(R.AdoptSeed(r1.terms, m).value, m);
        OpenSame(R.Push(r1.(terms := R.AdoptSeed(r1.terms, m).value.(advertised := Some(rs))), ResumeMsg(rs)));
      }
    }
  }

  lemma AfterAckAnswer(r: R.State)
    requires R.HasCurrent(r) && r.outcome == Running
    ensures var s := R.AfterAck(r, R.NoFault); s.st.outcome == Running && (s.Err? ==> s.reason == DigestMismatch)
  {
    hide R.OpenNextFile;
    var s := R.FinishFile(r, R.NoFault);
    if s.Ok? { OpenSame(s.st); }
  }

  lemma CommitAnswer(r: R.State, data: seq<byte>)
    requires R.Sane(r) && r.outcome == Running && R.HasCurrent(r) && 0 <= R.Current(r).blockSize
    ensures Shows(true, R.CommitBlock(r, data, R.NoFault), R.CommitBlock(r, data, R.SendFault))
  {
    hide R.AfterAck, R.WriteBlock, R.AllShaped;
    MulNonNegative(r.prog.nextBlock, R.Current(r).blockSize);
    var r1 := r.(prog := r.prog.(digest := r.prog.digest + data));
    var r2 := R.Committing(r1, r.prog.nextBlock * R.Current(r).blockSize, data);
    AfterAckAnswer(R.Push(r2, Ack(r.prog.fileIdx, r.prog.nextBlock)));
  }

  lemma HashAnswer(r: R.State, file: int, block: int, sha: Sha)
    requires R.Sane(r) && r.outcome == Running
    ensures Shows(AnswersHash(r, file, block, sha),
                  R.OnBlockHash(r, file, block, sha, R.NoFault), R.OnBlockHash(r, file, block, sha, R.SendFault))
  {
    hide R.CommitBlock;
    if r.terms.manifest.Some? && r.prog.fileOpen && r.intake.asm.Some? {
      CommitAnswer(R.SetAsm(r, None), r.intake.asm.value.got);
    }
  }

  lemma DispatchAnswer(r: R.State, frame: Frame)
    requires R.Sane(r) && r.outcome == Running && frame.Sealed? && r.link.recvCounter <= frame.counter
    ensures var a := R.Accept(r, frame.counter);
            Answers(r, frame) ==> Shows(true, R.Dispatch(a, frame.msg, R.NoFault), R.Dispatch(a, frame.msg, R.SendFault))
    ensures var a := R.Accept(r, frame.counter);
            !Answers(r, frame) ==> R.Dispatch(a, frame.msg, R.NoFault) == R.Dispatch(a, frame.msg, R.SendFault)
  {
    hide R.ApplyManifest, R.OnBlockData, R.OnBlockHash, R.AllShaped, CompletionDigest, SafePath.Validate, R.SeedOk;
    var a := R.Accept(r, frame.counter);
    match frame.msg {
      case ManifestMsg(raw) => ManifestAnswer(a, raw);
      case BlockHash(file, block, sha) => HashAnswer(a, file, block, sha);
      case _ =>
    }
  }

  /** The guard tells exactly the frames whose answer is missed: taking the frame while nothing
      can be sent differs from taking it normally, and then it is an integrity error. */
  lemma AnswersExactly(r: R.State, frame: Frame)
    requires R.Sane(r)
    ensures Answers(r, frame) <==> R.Handle(r, frame, R.SendFault) != R.Handle(r, frame, R.NoFault)
    ensures Answers(r, frame) ==> R.Handle(r, frame, R.SendFault).outcome == Failed(Integrity)
    ensures Answers(r, frame) ==> R.Handle(r, frame, R.NoFault).outcome != Failed(Integrity)
  {
    hide R.Dispatch, R.AllShaped, AnswersManifest, AnswersHash, AnswersComplete;
    if r.outcome == Running && frame.Sealed? && r.link.recvCounter <= frame.counter {
      assert r.outcome == Running;
      DispatchAnswer(r, frame);
    }
  }
}
