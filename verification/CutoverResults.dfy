/** With a stable source and ordered delivery between path changes, neither side ever fails
    with an integrity error, and exactly when that promise breaks. */
module CutoverResults {
  import opened Wire
  import opened Geometry
  import opened ReceiverSafety
  import opened Engine
  import opened EngineResults
  import opened Cutover
  import S = SenderModel
  import W = SenderWindow
  import R = ReceiverModel
  import A = ReceiverAnswers
  import SafePath

  // ---------------------------------------------------------------- messages to the sender

  /** The sender accepts the one resume_state this receiver sends, first or repeated. */
  lemma ResumeAccepted(x: Setup, s: S.State, r: R.State)
    requires SetupOk(x) && W.Inv(x.c, s) && Agreed(x, s, r) && x.c.manifest.transferId != [] && s.manifestSent
    ensures S.BuildPlan(x.c, s, Advert(x)).Some?
  {
    hide W.Inv, R.SeedOk, S.ScanMarks, W.MarksCover;
    if s.plan.applied == None {
      W.PlanIsExact(x.c, s, Advert(x));
      assert W.MarksCover(x.c.manifest.files, Advert(x).files) by { AdvertCovers(x); }
    }
  }

  lemma AdvertCovers(x: Setup)
    requires SetupOk(x)
    ensures W.MarksCover(x.c.manifest.files, Advert(x).files)
  {
    hide R.SeedOk;
    var files, marks := x.c.manifest.files, Advert(x).files;
    forall i | 0 <= i < |marks|
      ensures marks[i].idx == i && 0 <= marks[i].haveBlocks <= files[i].blocks
    {
      assert HostHonest(x, i);
    }
  }

  lemma InboundHalf(x: Setup, y: System, gap: bool, j: nat)
    requires CutoverInv(x, y, gap) && j < |y.r.link.sent|
    ensures var t := S.Handle(x.c, y.s, Sealed(j, y.r.link.sent[j]));
            && SenderHalf(x, y, t, gap) && ReachOf(t) == ReachOf(y.s)
            && (t.plan.applied.Some? ==> y.r.terms.manifest.Some?)
  {
    hide CutoverInv, SenderHalf, AckOk, W.Inv, SetupOk, S.BuildPlan, Advert, Agreed;
    var s, m := y.s, y.r.link.sent[j];
    var t := S.Handle(x.c, s, Sealed(j, m));
    InboundFacts(x, y, gap, j);
    if m.ResumeMsg? && y.s.outcome == Running && s.link.recvCounter <= j {
      var s1 := S.Accept(s, j);
      W.FrameKeepsInv(x.c, s, s1);
      assert Agreed(x, s1, y.r) by { AgreedSame(x, s, s1, y.r); }
      ResumeAccepted(x, s1, y.r);
    }
    assert s.link.sent + [] == s.link.sent;
    QuietStep(x, y, t, gap, []);
  }

  lemma AgreedSame(x: Setup, s: S.State, t: S.State, r: R.State)
    requires Agreed(x, s, r) && t.plan == s.plan && t.outcome == s.outcome
    ensures Agreed(x, t, r)
  {}

  lemma InboundFacts(x: Setup, y: System, gap: bool, j: nat)
    requires CutoverInv(x, y, gap) && j < |y.r.link.sent|
    ensures SetupOk(x) && W.Inv(x.c, y.s) && Agreed(x, y.s, y.r) && SenderHalf(x, y, y.s, gap)
    ensures GoodOutcome(y.s.outcome)
    ensures var m := y.r.link.sent[j];
            && FromReceiver(m, ReachOf(y.s), y.r.terms.manifest.Some?)
            && (m.ResumeMsg? ==> x.c.manifest.transferId != [] && m.state == Advert(x))
            && (y.r.terms.manifest.Some? ==> y.s.manifestSent)
            && (y.s.plan.applied.Some? ==> y.r.terms.manifest.Some?)
  {
    hide W.Inv, SetupOk, IsCommitted, Live, LogOk, SinksOk, Linked, HistoryOk, StreamOk, IntakeOk, Reached, Fits,
      Stable;
    assert AckOk(x, y.r.prog, y.r.out, y.r.link.sent[j]);
    assert y.(s := y.s) == y;
  }

  // ---------------------------------------------------------------- the receiver's stream

  /** The receiver takes frame `i`: the next one, or one past a gap it knows of. */
  lemma StreamTaken(x: Setup, y: System, gap: bool, i: nat)
    requires StreamOk(x, y, gap) && y.r.link.recvCounter <= i < |y.s.link.sent|
    requires i == y.r.link.recvCounter || gap
    ensures var t := Track(x.c, Next(x.c, ReceiverSpot(y.r), y.s.link.sent[i]), y.s.link.sent[i + 1..]);
            t != Bad && (y.s.pc.Returned? || t == Lost || t == SenderSpot(y.s))
    ensures Next(x.c, ReceiverSpot(y.r), y.s.link.sent[i]) != Bad
  {
    hide Next, Track;
    var c, sent, rc, spot := x.c, y.s.link.sent, y.r.link.recvCounter, ReceiverSpot(y.r);
    TrackAppend(c, spot, sent[rc..i], sent[i..]);
    assert sent[rc..i] + sent[i..] == sent[rc..];
    assert [sent[i]] + sent[i + 1..] == sent[i..];
    if i == rc {
      TrackNeutral(c, spot, sent[rc..i]);
    } else {
      LostCatchesUp(c, Track(c, spot, sent[rc..i]), sent[i..]);
    }
    TrackHead(c, spot, sent[i], sent[i + 1..]);
    TrackBad(c, sent[i + 1..]);
  }

  /** After the call the receiver is where the stream says, or skips to a later block. */
  lemma StreamFollowed(x: Setup, y: System, r: R.State, i: nat)
    requires i < |y.s.link.sent| && r.link.recvCounter == i + 1
    requires ReceiverSpot(r) == Lost || ReceiverSpot(r) == Next(x.c, ReceiverSpot(y.r), y.s.link.sent[i])
    requires var t := Track(x.c, Next(x.c, ReceiverSpot(y.r), y.s.link.sent[i]), y.s.link.sent[i + 1..]);
             t != Bad && (y.s.pc.Returned? || t == Lost || t == SenderSpot(y.s))
    ensures StreamOk(x, y.(r := r), false)
  {
    hide Next, Track;
    LostCatchesUp(x.c, Next(x.c, ReceiverSpot(y.r), y.s.link.sent[i]), y.s.link.sent[i + 1..]);
  }

  // ---------------------------------------------------------------- receiver handlers

  /** What a handler may count on when frame `m` is the next one. */
  predicate Ready(x: Setup, r: R.State, m: Msg, at: Reach) {
    && ReceiverSafety.Inv(x, r) && r.outcome == Running && Stable(x)
    && IntakeOk(x, r) && Reached(x, r.prog, at)
    && (at.completeSent ==> r.terms.manifest.Some?) && (r.terms.manifest.Some? ==> at.manifestSent)
    && RepliesOk(r.link.sent, at, r.terms.manifest.Some?)
    && FromSender(x.c, m, at) && Next(x.c, ReceiverSpot(r), m) != Bad
  }

  /** The call neither fails the transfer for integrity nor loses its place. */
  predicate GoodStep(x: Setup, r: R.State, m: Msg, s: R.Step, at: Reach) {
    && (s.Err? ==> GoodReason(s.reason)) && GoodOutcome(s.st.outcome)
    && (r.terms.manifest.Some? ==> s.st.terms.manifest.Some?)
    && (s.st.terms.manifest.Some? ==> at.manifestSent)
    && RepliesOk(s.st.link.sent, at, s.st.terms.manifest.Some?)
    && (s.Ok? && s.st.outcome == Running ==>
          IntakeOk(x, s.st) && (ReceiverSpot(s.st) == Lost || ReceiverSpot(s.st) == Next(x.c, ReceiverSpot(r), m)))
  }

  lemma PushReply(sent: seq<Msg>, m: Msg, at: Reach, known: bool)
    requires RepliesOk(sent, at, known) && FromReceiver(m, at, known)
    ensures RepliesOk(sent + [m], at, known)
  {
    hide FromReceiver;
  }

  /** A running receiver that has its manifest is never behind the sender's file. */
  lemma NotBehind(x: Setup, r: R.State, at: Reach)
    requires ReceiverSafety.Inv(x, r) && r.outcome == Running && r.terms.manifest.Some? && Reached(x, r.prog, at)
    ensures r.terms.manifest.value == x.c.manifest
    ensures r.prog.fileIdx <= Count(x) && (!r.prog.fileOpen ==> r.prog.fileIdx == Count(x))
    ensures r.prog.fileOpen ==>
              && r.prog.fileIdx < Count(x) && Passed(x, at) <= r.prog.fileIdx
              && r.prog.nextBlock < Entry(x, r.prog.fileIdx).blocks
  {
    hide SetupOk, SentOk, LogOk, AsmOk, R.WellFormed, Live, SinkOk, Held;
  }

  lemma PieceLength(x: Setup, f: nat, b: nat)
    requires SetupOk(x) && Stable(x) && S.ValidFile(x.c, f) && b < S.Pieces(x.c, f)
    ensures b < Entry(x, f).blocks && |S.Piece(x.c, f, b)| == BlockLength(Entry(x, f), b)
  {
    hide SetupOk;
    assert f < |x.c.streams| && |x.c.streams[f]| == Entry(x, f).size;
    BlockOfLength(x.c.streams[f], Entry(x, f).blockSize, b);
    BlockLengthIsPos(Entry(x, f), b);
  }

  lemma ReadySetup(x: Setup, r: R.State, m: Msg, at: Reach)
    requires Ready(x, r, m, at)
    ensures SetupOk(x) && AsmOk(x, r.intake.asm) && Base(x, r)
  {}

  lemma JoinPrefix(piece: seq<byte>, got: seq<byte>, p: seq<byte>)
    requires |got| + |p| <= |piece| && got == piece[..|got|] && p == piece[|got|..|got| + |p|]
    ensures got + p == piece[..|got + p|]
  {}

  lemma DataGood(x: Setup, r: R.State, m: Msg, at: Reach)
    requires Ready(x, r, m, at) && m.BlockData?
    ensures GoodStep(x, r, m, R.OnBlockData(r, m.fileIdx, m.blockIdx, m.frameOff, m.payload), at)
  {
    hide ReceiverSafety.Inv, SetupOk, Stable, Reached, RepliesOk, S.Piece, S.Pieces, BlockLength, Base;
    if r.terms.manifest.Some? {
      ReadySetup(x, r, m, at);
      NotBehind(x, r, at);
      PieceLength(x, m.fileIdx, m.blockIdx);
      var piece := S.Piece(x.c, m.fileIdx, m.blockIdx);
      if m.frameOff == 0 {
        JoinPrefix(piece, [], m.payload);
      } else if !r.intake.awaitingRestart {
        JoinPrefix(piece, r.intake.asm.value.got, m.payload);
      }
    }
  }

  lemma CurrentSink(x: Setup, r: R.State)
    requires Base(x, r) && r.prog.fileIdx < Count(x)
    ensures S.ConfigOk(x.c) && SinkOk(x, r.prog, R.Stored(r.out, r.prog.fileIdx), r.prog.fileIdx)
  {
    hide SentOk, LogOk, AsmOk, R.WellFormed, TermsOk, FromStream;
  }

  /** A stable source passes the digest check when its last block is in. */
  lemma DigestMatches(x: Setup, r: R.State)
    requires Base(x, r) && Live(x, r.prog, r.out) && Stable(x) && r.terms.manifest == Some(x.c.manifest)
    requires r.prog.fileOpen && R.HasCurrent(r) && r.prog.nextBlock == R.Current(r).blocks
    ensures Sha(r.prog.digest) == R.Current(r).digest
  {
    hide Base, SetupOk, Pos, Blocks;
    var f, content := r.prog.fileIdx, R.Stored(r.out, r.prog.fileIdx);
    assert SinkOk(x, r.prog, content, f) && S.ConfigOk(x.c) by { CurrentSink(x, r); }
    BlockCountBound(Entry(x, f).size, Entry(x, f).blockSize);
    var s0, stream := Stored0(x, f), x.c.streams[f];
    assert |content| == |stream|;
    if |content| > |s0| {
      assert content == content[..|s0|] + content[|s0|..];
      assert stream == stream[..|s0|] + stream[|s0|..];
    }
  }

  lemma {:induction false} OpenGood(x: Setup, r: R.State, fault: R.Fault)
    requires BetweenFiles(x, r) && Stable(x)
    ensures R.OpenNextFile(r, fault).Err? ==> GoodReason(R.OpenNextFile(r, fault).reason)
    decreases Count(x) - r.prog.fileIdx
  {
    hide Base, Live, Stable, Committed, Resuming, Held;
    if R.HasCurrent(r) {
      EnterFileSound(x, r);
      var r1 := R.EnterFile(r);
      OpenSinkKeeps(x, r1);
      var r2 := R.OpenSink(r1);
      CurrentHeld(x, r);
      if !R.FaultAt(fault, R.AtOpen) && r2.prog.nextBlock >= R.Current(r2).blocks {
        FinishFileSound(x, r2, fault);
        DigestMatches(x, r2);
        if R.FinishFile(r2, fault).Ok? {
          OpenGood(x, R.FinishFile(r2, fault).st, fault);
        }
      }
    }
  }

  /** A reply to a verified block keeps the receiver's place between blocks. */
  predicate Replied(r: R.State, s: R.Step, at: Reach) {
    && (s.Err? ==> GoodReason(s.reason)) && s.st.outcome == r.outcome
    && s.st.terms == r.terms && s.st.intake.asm == r.intake.asm
    && s.st.intake.awaitingRestart == r.intake.awaitingRestart
    && RepliesOk(s.st.link.sent, at, r.terms.manifest.Some?)
  }

  lemma AfterAckGood(x: Setup, r: R.State, fault: R.Fault, at: Reach)
    requires Base(x, r) && Live(x, r.prog, r.out) && r.outcome == Running && Stable(x) && fault != R.SendFault
    requires R.HasCurrent(r) && r.terms.manifest.value == x.c.manifest && r.prog.fileOpen
    requires r.terms.active == (if Resuming(x) then x.host else None)
    requires x.c.manifest.transferId != [] ==> r.terms.advertised.Some?
    requires RepliesOk(r.link.sent, at, true) && r.prog.fileIdx <= at.active
    ensures Replied(r, R.AfterAck(r, fault), at)
  {
    hide Base, Live, Stable, Resuming, RepliesOk, R.OpenNextFile;
    if r.prog.nextBlock == R.Current(r).blocks {
      FinishFileSound(x, r, fault);
      DigestMatches(x, r);
      if R.FinishFile(r, fault).Ok? { OpenGood(x, R.FinishFile(r, fault).st, fault); }
    } else {
      PushReply(r.link.sent, Nack(r.prog.fileIdx, r.prog.nextBlock), at, true);
    }
  }

  lemma SettledFacts(x: Setup, r: R.State)
    requires ReceiverSafety.Inv(x, r) && r.outcome == Running && r.terms.manifest.Some?
    ensures Settled(x, r.terms, r.prog) && TermsOk(x, r.terms) && 0 <= r.prog.nextBlock && R.Sane(r)
    ensures r.prog.fileOpen ==> R.HasCurrent(r)
  {
    hide SetupOk, SentOk, LogOk, AsmOk, Live, SinksOk, R.SeedOk;
  }

  lemma CommitGood(x: Setup, r: R.State, block: seq<byte>, fault: R.Fault, at: Reach)
    requires ReceiverSafety.Inv(x, r) && r.outcome == Running && Stable(x) && fault != R.SendFault
    requires NextBlock(x, r, block) && R.HasCurrent(r) && r.terms.manifest.value == x.c.manifest
    requires RepliesOk(r.link.sent, at, true) && r.prog.fileIdx <= at.active
    ensures Replied(r, R.CommitBlock(r, block, fault), at)
  {
    hide ReceiverSafety.Inv, Base, Live, Stable, Resuming, RepliesOk, R.AfterAck, R.WriteBlock, S.Piece, S.Pieces,
      BlockLength, Blocks;
    SettledFacts(x, r);
    var r1 := AfterWrite(r, block);
    AfterWriteSound(x, r, block);
    PushReply(r.link.sent, Ack(r.prog.fileIdx, r.prog.nextBlock), at, true);
    AfterAckGood(x, r1, fault, at);
  }

  lemma VerifiedGood(x: Setup, r: R.State, file: int, block: int, data: seq<byte>, fault: R.Fault, at: Reach)
    requires ReceiverSafety.Inv(x, r) && r.outcome == Running && r.terms.manifest.Some? && Stable(x)
    requires fault != R.SendFault && Reached(x, r.prog, at) && RepliesOk(r.link.sent, at, true)
    requires S.ValidFile(x.c, file) && 0 <= block < S.Pieces(x.c, file) && block < Entry(x, file).blocks
    requires data == S.Piece(x.c, file, block) && |data| == BlockLength(Entry(x, file), block)
    requires file <= at.active < Count(x)
    ensures R.Sane(r) && Replied(r, R.OnVerified(r, file, block, data, fault), at)
  {
    hide ReceiverSafety.Inv, Stable, Reached, RepliesOk, R.CommitBlock, S.Piece, S.Pieces, BlockLength, S.ValidFile;
    hide TermsOk, R.Sane;
    SettledFacts(x, r);
    NotBehind(x, r, at);
    PushReply(r.link.sent, Ack(file, block), at, true);
    if file == r.prog.fileIdx {
      PushReply(r.link.sent, Nack(r.prog.fileIdx, r.prog.nextBlock), at, true);
      if block == r.prog.nextBlock { CommitGood(x, r, data, fault, at); }
    }
  }

  lemma HashGood(x: Setup, r: R.State, m: Msg, at: Reach, fault: R.Fault)
    requires Ready(x, r, m, at) && m.BlockHash? && fault != R.SendFault && at.active < Count(x)
    ensures R.Sane(r) && GoodStep(x, r, m, R.OnBlockHash(r, m.hashFile, m.hashBlock, m.sha, fault), at)
  {
    hide ReceiverSafety.Inv, SetupOk, Stable, Reached, RepliesOk, S.Piece, S.Pieces, S.ValidFile, BlockLength, Base,
      R.OnVerified;
    ReadySane(x, r, m, at);
    if r.intake.asm.Some? {
      ReadySetup(x, r, m, at);
      assert S.ValidFile(x.c, m.hashFile);
      NotBehind(x, r, at);
      PieceLength(x, m.hashFile, m.hashBlock);
      var a := r.intake.asm.value;
      assert a.got == S.Piece(x.c, m.hashFile, m.hashBlock);
      var r1 := R.SetAsm(r, None);
      FrameKeepsBase(x, r, r1);
      VerifiedGood(x, r1, m.hashFile, m.hashBlock, a.got, fault, at);
    }
  }

  lemma ReadySane(x: Setup, r: R.State, m: Msg, at: Reach)
    requires Ready(x, r, m, at)
    ensures R.Sane(r)
  {}

  lemma CompleteGood(x: Setup, r: R.State, m: Msg, at: Reach, fault: R.Fault)
    requires Ready(x, r, m, at) && m.Complete? && fault != R.SendFault
    ensures R.Sane(r) && GoodStep(x, r, m, R.OnComplete(r, m.digest, fault), at)
  {
    hide ReceiverSafety.Inv, Stable, Reached, RepliesOk, IntakeOk, CompletionDigest;
    ReadySane(x, r, m, at);
    NotBehind(x, r, at);
    PushReply(r.link.sent, Done, at, true);
  }

  lemma FirstManifestFacts(x: Setup, r: R.State)
    requires ReceiverSafety.Inv(x, r) && r.outcome == Running && r.terms.manifest == None
    ensures !r.prog.fileOpen && r.terms.host == x.host && r.terms.active == None
  {
    hide SetupOk, SentOk, LogOk, AsmOk, Live, SinksOk, R.SeedOk, Resuming;
  }

  lemma FreshOpenGood(x: Setup, r: R.State, fault: R.Fault)
    requires ReceiverSafety.Inv(x, r) && r.outcome == Running && r.terms.manifest == None && Stable(x)
    requires x.c.manifest.transferId == []
    ensures var s := R.OpenNextFile(R.FirstManifest(r, x.c.manifest), fault); s.Err? ==> GoodReason(s.reason)
  {
    hide ReceiverSafety.Inv, Base, Live, Stable, R.OpenNextFile, R.SeedOk;
    FirstManifestFacts(x, r);
    FirstManifestSound(x, r);
    OpenGood(x, R.FirstManifest(r, x.c.manifest), fault);
  }

  lemma ResumeOpenGood(x: Setup, r: R.State, fault: R.Fault)
    requires Base(x, r) && Live(x, r.prog, r.out) && r.outcome == Running && !r.prog.fileOpen && Stable(x)
    requires r.terms.manifest == Some(x.c.manifest) && x.c.manifest.transferId != []
    requires r.terms.active == None && r.terms.advertised == None
    requires R.AdoptSeed(r.terms, x.c.manifest).Some?
    ensures var t := R.AdoptSeed(r.terms, x.c.manifest).value;
            var rs := R.Advertisement(t, x.c.manifest);
            var r2 := R.Push(r.(terms := t.(advertised := Some(rs))), ResumeMsg(rs));
            R.OpenNextFile(r2, fault).Err? ==> GoodReason(R.OpenNextFile(r2, fault).reason)
  {
    hide Base, Live, Stable, R.OpenNextFile, R.SeedOk, R.Advertisement, R.ReusedBytes;
    FreshTermsSound(x, r, fault);
    BaseTerms(x, r);
    var t := R.AdoptSeed(r.terms, x.c.manifest).value;
    var rs := R.Advertisement(t, x.c.manifest);
    var r2 := R.Push(r.(terms := t.(advertised := Some(rs))), ResumeMsg(rs));
    assert Live(x, r2.prog, r2.out) by { BaseConfig(x, r2); }
    OpenGood(x, r2, fault);
  }

  lemma BaseTerms(x: Setup, r: R.State)
    requires Base(x, r)
    ensures TermsOk(x, r.terms)
  {}

  lemma BaseConfig(x: Setup, r: R.State)
    requires Base(x, r)
    ensures S.ConfigOk(x.c) && r.prog.fileIdx <= Count(x)
  {}

  lemma ManifestAccepted(x: Setup)
    requires SetupOk(x)
    ensures SafePath.Validate(x.c.manifest) == Some(x.c.manifest)
  {}

  lemma ManifestGood(x: Setup, r: R.State, m: Msg, at: Reach, fault: R.Fault)
    requires Ready(x, r, m, at) && m.ManifestMsg? && fault != R.SendFault
    ensures GoodStep(x, r, m, R.ApplyManifest(r, m.manifest, fault), at)
  {
    hide ReceiverSafety.Inv, Stable, Reached, RepliesOk, S.Piece, S.Pieces, S.ValidFile, R.OpenNextFile, R.SeedOk,
      R.ReusedBytes, R.Advertisement, Base, SafePath.Validate, SetupOk, AsmOk;
    ReadySetup(x, r, m, at);
    assert SafePath.Validate(x.c.manifest) == Some(x.c.manifest) by { ManifestAccepted(x); }
    if r.terms.manifest.Some? {
      NotBehind(x, r, at);
      if r.terms.advertised.Some? { PushReply(r.link.sent, ResumeMsg(r.terms.advertised.value), at, true); }
    } else {
      FirstManifestFacts(x, r);
      FirstManifestSound(x, r);
      var r1 := R.FirstManifest(r, x.c.manifest);
      RepliesLater(r.link.sent, at, false, at, true);
      if x.c.manifest.transferId == [] {
        FreshOpenGood(x, r, fault);
      } else if R.AdoptSeed(r1.terms, x.c.manifest).Some? {
        ResumeOpenGood(x, r1, fault);
        PushReply(r.link.sent, ResumeMsg(R.Advertisement(R.AdoptSeed(r1.terms, x.c.manifest).value, x.c.manifest)), at, true);
      }
    }
  }

  lemma DispatchGood(x: Setup, r: R.State, m: Msg, at: Reach, fault: R.Fault)
    requires Ready(x, r, m, at) && fault != R.SendFault && at.active < Count(x)
    ensures R.Sane(r) && GoodStep(x, r, m, R.Dispatch(r, m, fault), at)
  {
    hide ReceiverSafety.Inv, Stable, Reached, RepliesOk, S.Piece, S.Pieces, S.ValidFile;
    hide R.ApplyManifest, R.OnBlockData, R.OnBlockHash, R.OnComplete;
    ReadySane(x, r, m, at);
    match m {
      case ManifestMsg(_) => ManifestGood(x, r, m, at, fault);
      case BlockData(_, _, _, _) => DataGood(x, r, m, at);
      case BlockHash(_, _, _) => HashGood(x, r, m, at, fault);
      case Complete(_) => CompleteGood(x, r, m, at, fault);
      case _ =>
    }
  }

  // ---------------------------------------------------------------- every event keeps the invariant

  /** What a delivery to the receiver has to re-establish. */
  predicate ReceiverHalf(x: Setup, y: System, r: R.State, gap: bool) {
    && GoodOutcome(r.outcome)
    && (y.r.terms.manifest.Some? ==> r.terms.manifest.Some?)
    && (r.terms.manifest.Some? ==> y.s.manifestSent)
    && RepliesOk(r.link.sent, ReachOf(y.s), r.terms.manifest.Some?)
    && (r.outcome == Running ==>
          IntakeOk(x, r) && StreamOk(x, y.(r := r), gap) && Reached(x, r.prog, ReachOf(y.s)))
  }

  lemma ReachedLater(x: Setup, p: R.Progress, q: R.Progress, at: Reach)
    requires Reached(x, p, at) && R.Advances(p, q)
    ensures Reached(x, q, at)
  {
    hide Held;
  }

  /** The receiver's part of the invariant, opened up. */
  lemma ReceiverFacts(x: Setup, y: System, gap: bool)
    requires CutoverInv(x, y, gap)
    ensures ReceiverHalf(x, y, y.r, gap) && ReceiverSafety.Inv(x, y.r) && Stable(x) && R.Sane(y.r)
    ensures y.s.completeSent ==> y.r.terms.manifest.Some?
    ensures y.s.tally.active < Count(x)
    ensures y.r.terms.manifest.Some? || !y.r.prog.fileOpen
    ensures HistoryOk(x.c, y.s.link.sent, ReachOf(y.s))
  {
    hide W.Inv, AllGenuine, Linked, Agreed, SinksOk, SentOk, LogOk, AsmOk, SetupOk, Live, Held, Stable, Fits;
    hide HistoryOk, RepliesOk, IntakeOk, StreamOk, Reached;
    assert y.(r := y.r) == y;
  }

  lemma AcceptReady(x: Setup, y: System, gap: bool, i: nat)
    requires CutoverInv(x, y, gap) && y.r.outcome == Running
    requires y.r.link.recvCounter <= i < |y.s.link.sent| && (i == y.r.link.recvCounter || gap)
    ensures Ready(x, R.Accept(y.r, i), y.s.link.sent[i], ReachOf(y.s))
    ensures var t := Track(x.c, Next(x.c, ReceiverSpot(y.r), y.s.link.sent[i]), y.s.link.sent[i + 1..]);
            t != Bad && (y.s.pc.Returned? || t == Lost || t == SenderSpot(y.s))
  {
    hide CutoverInv, ReceiverSafety.Inv, Stable, Reached, RepliesOk, S.Piece, S.Pieces, S.ValidFile, StreamOk, Track,
      Next, FromSender, Base, AsmOk;
    ReceiverFacts(x, y, gap);
    assert y.(r := y.r) == y;
    StreamTaken(x, y, gap, i);
    InvBase(x, y.r);
    BaseAsm(x, y.r);
    FrameKeepsBase(x, y.r, R.Accept(y.r, i));
  }

  lemma FreshFrameHalf(x: Setup, y: System, gap: bool, i: nat, fault: R.Fault)
    requires CutoverInv(x, y, gap) && y.r.outcome == Running && fault != R.SendFault
    requires y.r.link.recvCounter <= i < |y.s.link.sent| && (i == y.r.link.recvCounter || gap)
    ensures R.Sane(y.r) && ReceiverHalf(x, y, R.Handle(y.r, Sealed(i, y.s.link.sent[i]), fault), false)
  {
    hide CutoverInv, Ready, Reached, RepliesOk, IntakeOk, StreamOk, Track, Next, R.Dispatch, ReceiverSafety.Inv,
      HistoryOk, Stable;
    ReceiverFacts(x, y, gap);
    AcceptReady(x, y, gap, i);
    var r1, m := R.Accept(y.r, i), y.s.link.sent[i];
    DispatchGood(x, r1, m, ReachOf(y.s), fault);
    var s := R.Dispatch(r1, m, fault);
    var t := R.Handle(y.r, Sealed(i, m), fault);
    if s.Err? {
      PushReply(s.st.link.sent, Fail(s.reason), ReachOf(y.s), s.st.terms.manifest.Some?);
    } else if s.st.outcome == Running {
      StreamFollowed(x, y, t, i);
    }
    ReachedLater(x, y.r.prog, t.prog, ReachOf(y.s));
  }

  lemma DeliveryHalf(x: Setup, y: System, gap: bool, i: nat, fault: R.Fault)
    requires CutoverInv(x, y, gap) && fault != R.SendFault && i < |y.s.link.sent|
    requires i <= y.r.link.recvCounter || gap
    ensures R.Sane(y.r)
    ensures ReceiverHalf(x, y, R.Handle(y.r, Sealed(i, y.s.link.sent[i]), fault), gap && i < y.r.link.recvCounter)
  {
    hide CutoverInv, Ready, Reached, RepliesOk, IntakeOk, StreamOk, R.Dispatch, ReceiverSafety.Inv, Stable, S.Piece,
      S.Pieces, S.ValidFile;
    ReceiverFacts(x, y, gap);
    if y.r.outcome == Running && y.r.link.recvCounter <= i {
      FreshFrameHalf(x, y, gap, i, fault);
    } else if y.r.outcome == Succeeded && y.s.link.sent[i].Complete? {
      assert FromSender(x.c, y.s.link.sent[i], ReachOf(y.s));
      PushReply(y.r.link.sent, Done, ReachOf(y.s), y.r.terms.manifest.Some?);
    }
  }

  lemma LocalHalf(x: Setup, y: System, gap: bool, e: Event)
    requires CutoverInv(x, y, gap) && (e.ReceiverPathChange? || e.ReceiverPause? || e.ReceiverCancel?)
    ensures ReceiverHalf(x, y, Apply(x, y, e).r, gap || e.ReceiverPathChange?)
  {
    hide CutoverInv, Reached, RepliesOk, ReceiverSafety.Inv, Stable, HistoryOk, Track, S.Piece, S.Pieces, S.ValidFile;
    ReceiverFacts(x, y, gap);
    var at, known := ReachOf(y.s), y.r.terms.manifest.Some?;
    PushReply(y.r.link.sent, ControlMsg(Cancel), at, known);
    if e.ReceiverPause? { PushReply(y.r.link.sent, ControlMsg(if e.paused then Pause else Resume), at, known); }
    if y.r.outcome == Running {
      LostCatchesUp(x.c, ReceiverSpot(y.r), y.s.link.sent[y.r.link.recvCounter..]);
    }
  }

  lemma SenderEventKeeps(x: Setup, y: System, gap: bool, e: S.Event)
    requires CutoverInv(x, y, gap) && !e.Inbound? && SetupOk(x)
    ensures CutoverInv(x, y.(s := S.Apply(x.c, y.s, e)), gap)
  {
    hide SystemInv, SetupOk, Fits, Stable, Answered, HistoryOk, RepliesOk, IntakeOk, StreamOk, Reached, S.Apply,
      S.ConfigOk, W.Inv;
    SenderInv(x, y);
    var t := S.Apply(x.c, y.s, e);
    assert y.(s := y.s) == y;
    ActHalf(x, y, gap, e);
    ActReached(x, y, gap, e);
    SenderSteady(x.c, y.s, e);
    RepliesLater(y.r.link.sent, ReachOf(y.s), y.r.terms.manifest.Some?, ReachOf(t), y.r.terms.manifest.Some?);
    WholeStep(x, y, SenderStep(e));
  }

  /** The safety invariant of the whole system after one event. */
  lemma WholeStep(x: Setup, y: System, e: Event)
    requires SystemInv(x, y)
    ensures SystemInv(x, Apply(x, y, e))
  {
    hide SystemInv;
    ApplyKeepsInv(x, y, e);
  }

  /** Frames carry the counters their position gives them. */
  lemma FramesNumbered(x: Setup, y: System)
    requires SystemInv(x, y)
    ensures forall i :: 0 <= i < |y.s.link.sent| ==> FrameOf(y.s.link, i) == Sealed(i, y.s.link.sent[i])
    ensures forall j :: 0 <= j < |y.r.link.sent| ==> FrameOf(y.r.link, j) == Sealed(j, y.r.link.sent[j])
  {
    hide SetupOk, W.Inv, ReceiverSafety.Inv, AllGenuine, Linked, Agreed;
  }

  lemma InboundKeeps(x: Setup, y: System, gap: bool, j: nat)
    requires CutoverInv(x, y, gap) && j < |y.r.link.sent|
    ensures CutoverInv(x, y.(s := S.Handle(x.c, y.s, Sealed(j, y.r.link.sent[j]))), gap)
  {
    hide SystemInv, Fits, Stable, Answered, HistoryOk, RepliesOk, IntakeOk, StreamOk, Reached, S.Handle;
    InboundHalf(x, y, gap, j);
    FramesNumbered(x, y);
    WholeStep(x, y, ToSender(j));
  }

  lemma ReceiverHalfKeeps(x: Setup, y: System, gap: bool, r: R.State, gap': bool)
    requires CutoverInv(x, y, gap) && ReceiverHalf(x, y, r, gap') && SystemInv(x, y.(r := r))
    ensures CutoverInv(x, y.(r := r), gap')
  {
    hide SystemInv, Fits, Stable, Answered, HistoryOk, RepliesOk, IntakeOk, StreamOk, Reached;
  }

  lemma GapWeakens(x: Setup, y: System, gap: bool)
    requires CutoverInv(x, y, gap)
    ensures CutoverInv(x, y, false)
  {
    hide SystemInv, Fits, Stable, Answered, HistoryOk, RepliesOk, IntakeOk, Reached, Track;
  }

  /** Whether the receiver still knows of a gap after one more event. */
  function GapAfter(y: System, gap: bool, e: Event): bool {
    if e.ReceiverPathChange? then true
    else if e.ToReceiver? && y.r.link.recvCounter <= e.i then false
    else gap
  }

  lemma EventKeeps(x: Setup, y: System, gap: bool, e: Event)
    requires CutoverInv(x, y, gap) && R.Sane(y.r) && Expected(y, gap, e) && !Missed(y, e)
    ensures CutoverInv(x, Apply(x, y, e), GapAfter(y, gap, e))
  {
    hide CutoverInv, S.Apply, S.Handle, R.Handle, SetupOk, R.WellFormed, ReceiverHalf, R.TransportChanged,
      R.SetPaused, R.CancelLocally, SystemInv,
      A.Answers;
    assert SetupOk(x) && R.WellFormed(y.r) && SystemInv(x, y) by { CutoverFacts(x, y, gap); }
    WholeStep(x, y, e);
    FramesNumbered(x, y);
    match e {
      case SenderStep(e) => if !e.Inbound? { SenderEventKeeps(x, y, gap, e); }
      case ToReceiver(i, fault) =>
        if i < |y.s.link.sent| {
          A.AnswersExactly(y.r, FrameOf(y.s.link, i));
          DeliveryHalf(x, y, gap, i, if fault == R.SendFault then R.NoFault else fault);
          ReceiverHalfKeeps(x, y, gap, Apply(x, y, e).r, gap && i < y.r.link.recvCounter);
        }
        if !GapAfter(y, gap, e) {
          GapWeakens(x, Apply(x, y, e), if i < |y.s.link.sent| then gap && i < y.r.link.recvCounter else gap);
        }
      case ToSender(j) => if j < |y.r.link.sent| { InboundKeeps(x, y, gap, j); }
      case ForgedToReceiver(_, _) =>
      case ForgedToSender(_) =>
      case _ =>
        LocalHalf(x, y, gap, e);
        ReceiverHalfKeeps(x, y, gap, Apply(x, y, e).r, gap || e.ReceiverPathChange?);
    }
  }

  lemma CutoverFacts(x: Setup, y: System, gap: bool)
    requires CutoverInv(x, y, gap)
    ensures SetupOk(x) && R.WellFormed(y.r) && SystemInv(x, y) && GoodOutcome(y.s.outcome) && GoodOutcome(y.r.outcome)
  {}

  lemma InitCutover(x: Setup)
    requires SetupOk(x) && Stable(x) && Fits(x) && Answered(x)
    ensures CutoverInv(x, Init(x), false)
  {
    InitKeepsInv(x);
    hide SystemInv, Stable, Fits, Answered, SetupOk;
  }

  lemma {:induction false} OrderedRunKeeps(x: Setup, es: seq<Event>)
    requires SetupOk(x) && Stable(x) && Fits(x) && Answered(x) && InOrder(x, es)
    ensures CutoverInv(x, Exec(x, es), Gap(x, es))
    decreases |es|
  {
    hide CutoverInv, SetupOk, Stable, Fits, Answered, Expected, Missed, Apply;
    if es == [] {
      InitCutover(x);
    } else {
      OrderedRunKeeps(x, es[..|es| - 1]);
      EventKeeps(x, Exec(x, es[..|es| - 1]), Gap(x, es[..|es| - 1]), es[|es| - 1]);
    }
  }

  // ---------------------------------------------------------------- main results

  /** In every ordered run over a stable source neither side settles with an integrity error
      or a digest mismatch: stale tails and hashes are discarded, retransmitted blocks are
      accepted, and duplicate manifests and resume_states are absorbed. */
  lemma NoIntegrityFailure(x: Setup, es: seq<Event>)
    requires SetupOk(x) && Stable(x) && Fits(x) && Answered(x) && InOrder(x, es)
    ensures GoodOutcome(Exec(x, es).s.outcome) && GoodOutcome(Exec(x, es).r.outcome)
  {
    hide CutoverInv, SetupOk, Stable, Fits, Answered, InOrder, Exec;
    OrderedRunKeeps(x, es);
    CutoverFacts(x, Exec(x, es), Gap(x, es));
  }

  // ---------------------------------------------------------------- when an answer cannot be sent

  /** A failed receiver stays failed, for the same reason. */
  lemma FailureStays(x: Setup, y: System, e: Event)
    requires SetupOk(x) && R.WellFormed(y.r) && y.r.outcome.Failed?
    ensures Apply(x, y, e).r.outcome == y.r.outcome
  {
    hide SetupOk, S.Apply, S.Handle;
    assert S.ConfigOk(x.c) by { SetupConfig(x); }
  }

  /** A run in which one answer was missed leaves the receiver with an integrity error. */
  lemma {:induction false} MissedFails(x: Setup, es: seq<Event>)
    requires SetupOk(x) && Stable(x) && Fits(x) && Answered(x) && Ordered(x, es) && AnyMissed(x, es)
    ensures Exec(x, es).r.outcome == Failed(Integrity)
    decreases |es|
  {
    hide SetupOk, Stable, Fits, Answered, R.Handle, A.Answers, Expected, Gap;
    var init, e := es[..|es| - 1], es[|es| - 1];
    if AnyMissed(x, init) {
      MissedFails(x, init);
      FailureStays(x, Exec(x, init), e);
    } else {
      A.AnswersExactly(Exec(x, init).r, FrameOf(Exec(x, init).s.link, e.i));
    }
  }

  /** In an ordered run neither side settles with an integrity error or a digest mismatch
      exactly when the receiver could send whenever it took a frame it answers. */
  lemma SendFaultExactly(x: Setup, es: seq<Event>)
    requires SetupOk(x) && Stable(x) && Fits(x) && Answered(x) && Ordered(x, es)
    ensures GoodOutcome(Exec(x, es).s.outcome) && GoodOutcome(Exec(x, es).r.outcome) <==> !AnyMissed(x, es)
  {
    hide Exec, Ordered, AnyMissed, SetupOk, Stable, Fits, Answered;
    if AnyMissed(x, es) { MissedFails(x, es); } else { NoIntegrityFailure(x, es); }
  }

  /** It does happen: the resume_state answering the first manifest cannot be sent. */
  lemma LostAnswerFails(x: Setup)
    requires SetupOk(x) && x.c.manifest.transferId != [] && (x.host == None || Resuming(x))
    ensures var es := [SenderStep(S.Advance(true)), ToReceiver(0, R.SendFault)];
            InOrder(x, es[..1]) && Exec(x, es).r.outcome == Failed(Integrity)
  {
    hide SetupOk, R.OpenNextFile, R.SeedOk, SafePath.Validate, R.Advertisement, R.ReusedBytes, InOrder, Exec;
    var a, b := SenderStep(S.Advance(true)), ToReceiver(0, R.SendFault);
    assert [a, b] == [a] + [b] && [] + [a] == [a] && [a, b][..1] == [a];
    assert Exec(x, []) == Init(x) && InOrder(x, []) by { NothingRun(x); }
    RunSnoc(x, [], a);
    RunSnoc(x, [a], b);
    SetupConfig(x);
    ManifestAccepted(x);
  }

  lemma NothingRun(x: Setup)
    requires SetupOk(x)
    ensures Exec(x, []) == Init(x) && InOrder(x, [])
  {}

  /** `n` steps of the sender and nothing else. */
  function Steps(n: nat): seq<Event> {
    if n == 0 then [] else Steps(n - 1) + [SenderStep(S.Advance(true))]
  }

  lemma StepsExec(x: Setup, n: nat)
    requires SetupOk(x)
    ensures S.ConfigOk(x.c)
    ensures n > 0 ==> Exec(x, Steps(n)) == Exec(x, Steps(n - 1)).(s := S.RunStep(x.c, Exec(x, Steps(n - 1)).s, true))
    ensures n > 0 && InOrder(x, Steps(n - 1)) ==> InOrder(x, Steps(n))
  {
    hide SetupOk, S.RunStep;
    SetupConfig(x);
    if n > 0 { assert Steps(n)[..|Steps(n)| - 1] == Steps(n - 1); }
  }

  /** A sender of empty files, told nothing by its peer. */
  function Alone(x: Setup, pc: S.Pc, active: int, sent: seq<Msg>): S.State {
    S.Init().(pc := pc, tally := S.Tally(active, 0, 0), manifestSent := true,
              link := Link(0, [], sent, Sealer(|sent|, seq(|sent|, i => i))))
  }

  function Announced(x: Setup): S.State {
    Alone(x, S.WaitDone, Count(x) - 1, [ManifestMsg(x.c.manifest), Complete(CompletionDigest(x.c.manifest.files))])
      .(completeSent := true)
  }

  lemma {:induction false} EmptyFilesStream(x: Setup, f: nat)
    requires SetupOk(x) && Stable(x) && !Answered(x) && f <= Count(x)
    ensures Exec(x, Steps(1 + 2 * f)) == System(Alone(x, S.Activate(f), f - 1, [ManifestMsg(x.c.manifest)]), Init(x).r)
    ensures InOrder(x, Steps(1 + 2 * f))
  {
    hide SetupOk, Stable, Answered, S.RunStep, Alone, Announced, Steps, InOrder, Exec, S.ConfigOk;
    StepsExec(x, 1 + 2 * f);
    if f == 0 {
      NoSteps(x);
    } else {
      EmptyFilesStream(x, f - 1);
      StepsExec(x, 2 * f);
    }
    EmptyFileSteps(x, f);
  }

  lemma NoSteps(x: Setup)
    requires SetupOk(x)
    ensures Exec(x, Steps(0)) == Init(x) && InOrder(x, Steps(0))
  {}

  /** The sender enters and leaves an empty file in two steps. */
  lemma EmptyFileSteps(x: Setup, f: nat)
    requires SetupOk(x) && Stable(x) && !Answered(x) && f <= Count(x)
    ensures S.ConfigOk(x.c)
    ensures var sent := [ManifestMsg(x.c.manifest)];
            && S.RunStep(x.c, S.Init(), true) == Alone(x, S.Activate(0), -1, sent)
            && (f > 0 ==> S.RunStep(x.c, S.RunStep(x.c, Alone(x, S.Activate(f - 1), f - 2, sent), true), true)
                          == Alone(x, S.Activate(f), f - 1, sent))
            && (f == Count(x) ==> S.RunStep(x.c, Alone(x, S.Activate(f), f - 1, sent), true) == Announced(x))
  {
    hide SetupOk, Stable, CompletionDigest, S.SendStep, S.Resend, S.AdmitBlock, Committed, S.Pieces;
    SetupConfig(x);
    if f > 0 { EmptyFile(x, f - 1); }
  }

  lemma EmptyFile(x: Setup, f: nat)
    requires SetupOk(x) && Stable(x) && !Answered(x) && f < Count(x)
    ensures S.ConfigOk(x.c) && S.ValidFile(x.c, f) && S.Pieces(x.c, f) == 0 && Committed(Entry(x, f), 0) == 0
  {
    assert HostHonest(x, f) && Shaped(Entry(x, f)) && Entry(x, f).blocks <= 0;
    CommittedIsPos(Entry(x, f), 0);
  }

  /** A run in which Complete overtakes a manifest lost at a path change. */
  function LosingRun(x: Setup): seq<Event> {
    Steps(2 + 2 * Count(x)) + [ReceiverPathChange, ToReceiver(1, R.NoFault)]
  }

  lemma AnnouncedReached(x: Setup)
    requires SetupOk(x) && Stable(x) && !Answered(x)
    ensures Exec(x, Steps(2 + 2 * Count(x))) == System(Announced(x), Init(x).r)
    ensures InOrder(x, Steps(2 + 2 * Count(x)))
  {
    hide SetupOk, Stable, Answered, S.RunStep, Announced, Alone, Steps, InOrder, Exec, S.ConfigOk;
    EmptyFilesStream(x, Count(x));
    StepsExec(x, 2 + 2 * Count(x));
    EmptyFileSteps(x, Count(x));
  }

  lemma UnansweredFails(x: Setup)
    requires SetupOk(x) && Stable(x) && !Answered(x)
    ensures InOrder(x, LosingRun(x)) && Exec(x, LosingRun(x)).r.outcome == Failed(Integrity)
  {
    hide SetupOk, Stable, Answered, CompletionDigest, Steps, Exec, Apply, InOrder, Gap, Announced;
    AnnouncedReached(x);
    var start := Steps(2 + 2 * Count(x));
    var cut := start + [ReceiverPathChange];
    assert LosingRun(x) == cut + [ToReceiver(1, R.NoFault)];
    RunSnoc(x, start, ReceiverPathChange);
    RunSnoc(x, cut, ToReceiver(1, R.NoFault));
    LostManifest(x, Exec(x, start));
  }

  lemma RunSnoc(x: Setup, es: seq<Event>, e: Event)
    requires SetupOk(x)
    ensures Exec(x, es + [e]) == Apply(x, Exec(x, es), e)
    ensures InOrder(x, es) && Expected(Exec(x, es), Gap(x, es), e) && !Missed(Exec(x, es), e) ==> InOrder(x, es + [e])
    ensures e.ReceiverPathChange? ==> Gap(x, es + [e])
  {
    hide SetupOk, Apply;
    assert (es + [e])[..|es|] == es;
  }

  /** After the path change the receiver takes Complete as its first frame. */
  lemma LostManifest(x: Setup, y: System)
    requires SetupOk(x) && y == System(Announced(x), Init(x).r) && R.WellFormed(y.r)
    ensures var cut := Apply(x, y, ReceiverPathChange);
            cut.s == y.s && Apply(x, cut, ToReceiver(1, R.NoFault)).r.outcome == Failed(Integrity)
    ensures Expected(y, Gap(x, []), ReceiverPathChange)
  {
    hide SetupOk, CompletionDigest;
  }

  /** For a stable transfer that fits its header fields, the promise holds on every ordered
      run exactly when the transfer has a resume identity or at least one block to send. */
  lemma IntegrityExactly(x: Setup)
    requires SetupOk(x) && Stable(x) && Fits(x)
    ensures Answered(x) <==>
            forall es :: InOrder(x, es) ==> GoodOutcome(Exec(x, es).s.outcome) && GoodOutcome(Exec(x, es).r.outcome)
  {
    hide SetupOk, Stable, Fits, Answered, InOrder, Exec;
    if Answered(x) {
      forall es | InOrder(x, es) ensures GoodOutcome(Exec(x, es).s.outcome) && GoodOutcome(Exec(x, es).r.outcome) {
        NoIntegrityFailure(x, es);
      }
    } else {
      UnansweredFails(x);
    }
  }
}
