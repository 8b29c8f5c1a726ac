/** What the receiver's answers say: an ack repeats the position of the hash it answers, a nack
    names the first block of the open file that is missing, and completion is answered by Done. */
module ReceiverReplies {
  import opened Wire
  import opened Geometry
  import opened ReceiverSafety
  import opened Engine
  import S = SenderModel
  import W = SenderWindow
  import R = ReceiverModel
  import A = ReceiverAnswers
  import SafePath

  /** The messages sealed between two states of one link. */
  function Added(a: Link, b: Link): seq<Msg> { if |a.sent| <= |b.sent| then b.sent[|a.sent|..] else [] }

  /** Block `b` is the first of the open file `f` that the receiver neither held nor committed. */
  predicate FirstMissing(x: Setup, p: R.Progress, f: int, b: int) {
    && 0 <= f < Count(x) && p.fileOpen && p.fileIdx == f
    && 0 <= Held(x, f) <= b < Entry(x, f).blocks && !IsCommitted(x, p, f, b)
    && (forall k :: Held(x, f) <= k < b ==> IsCommitted(x, p, f, k))
  }

  /** A sealed message as the answer to message `m`. */
  predicate Replies(x: Setup, m: Msg, a: Msg, t: R.State) {
    match a
    case Ack(f, b) => m.BlockHash? && m.hashFile == f && m.hashBlock == b && IsCommitted(x, t.prog, f, b)
    case Nack(f, b) => (m.BlockHash? || m.Complete?) && FirstMissing(x, t.prog, f, b)
    case ResumeMsg(rs) => m.ManifestMsg? && rs == Advert(x)
    case Done => m.Complete? && t.out.closed && t.prog.fileIdx == Count(x)
    case Fail(reason) => t.outcome == Failed(reason)
    case _ => false
  }

  // ---------------------------------------------------------------- one call

  /** What a handler has sealed, in its own terms. */
  predicate Said(r: R.State, m: Msg, s: R.Step) {
    && r.link.sent <= s.st.link.sent
    && forall i :: |r.link.sent| <= i < |s.st.link.sent| ==>
         match s.st.link.sent[i]
         case Ack(f, b) => m.BlockHash? && m.hashFile == f && m.hashBlock == b
         case Nack(f, b) =>
           && (m.BlockHash? || m.Complete?) && r.prog.fileOpen && s.st.prog.fileOpen && s.st.prog.fileIdx == r.prog.fileIdx
           && f == s.st.prog.fileIdx && b == s.st.prog.nextBlock >= r.prog.nextBlock
           && R.HasCurrent(r) && (b == r.prog.nextBlock || b != R.Current(r).blocks)
         case ResumeMsg(_) => m.ManifestMsg?
         case Done => m.Complete?
         case _ => false
  }

  /** Opening files seals nothing. */
  lemma OpenQuiet(r: R.State, fault: R.Fault)
    requires r.terms.manifest.Some?
    ensures R.OpenNextFile(r, fault).st.link == r.link
  {}

  lemma ManifestSaid(r: R.State, raw: Manifest, fault: R.Fault)
    ensures Said(r, ManifestMsg(raw), R.ApplyManifest(r, raw, fault))
  {
    hide SafePath.Validate, R.OpenNextFile, R.SeedOk, R.ReusedBytes, R.Advertisement;
  }

  lemma AfterAckSaid(r: R.State, fault: R.Fault)
    requires R.HasCurrent(r) && r.prog.fileOpen
    ensures var s := R.AfterAck(r, fault);
            || s.st.link == r.link
            || (&& r.prog.nextBlock != R.Current(r).blocks && s.st.prog == r.prog
                && s.st.link.sent == r.link.sent + [Nack(r.prog.fileIdx, r.prog.nextBlock)])
  {
    hide R.OpenNextFile, SafePath.Validate;
  }

  /** A commit is acknowledged, and followed by a request for the next block if that came early. */
  lemma CommitSaid(r: R.State, block: seq<byte>, fault: R.Fault)
    requires R.Sane(r) && R.HasCurrent(r) && r.prog.fileOpen && 0 <= R.Current(r).blockSize
    ensures var s := R.CommitBlock(r, block, fault);
            var ack := Ack(r.prog.fileIdx, r.prog.nextBlock);
            || s.st.link == r.link
            || s.st.link.sent == r.link.sent + [ack]
            || (&& s.st.link.sent == r.link.sent + [ack, Nack(s.st.prog.fileIdx, s.st.prog.nextBlock)]
                && s.st.prog.fileOpen && s.st.prog.fileIdx == r.prog.fileIdx && s.st.prog.nextBlock == r.prog.nextBlock + 1
                && s.st.prog.nextBlock != R.Current(r).blocks)
  {
    hide R.AfterAck, R.WriteBlock, R.AllShaped;
    MulNonNegative(r.prog.nextBlock, R.Current(r).blockSize);
    AfterAckSaid(AfterWrite(r, block), fault);
  }

  lemma VerifiedSaid(r: R.State, m: Msg, data: seq<byte>, fault: R.Fault)
    requires R.Sane(r) && m.BlockHash?
    ensures Said(r, m, R.OnVerified(r, m.hashFile, m.hashBlock, data, fault))
  {
    hide R.CommitBlock, R.AllShaped;
    if r.prog.fileOpen && m.hashFile == r.prog.fileIdx && m.hashBlock == r.prog.nextBlock {
      assert Shaped(R.Current(r)) by { CurrentShaped(r); }
      CommitSaid(r, data, fault);
    }
  }

  lemma HashSaid(r: R.State, m: Msg, fault: R.Fault)
    requires R.Sane(r) && m.BlockHash?
    ensures Said(r, m, R.OnBlockHash(r, m.hashFile, m.hashBlock, m.sha, fault))
  {
    hide R.OnVerified, R.AllShaped;
    if r.intake.asm.Some? { VerifiedSaid(R.SetAsm(r, None), m, r.intake.asm.value.got, fault); }
  }

  lemma CurrentShaped(r: R.State)
    requires R.Sane(r) && R.HasCurrent(r)
    ensures Shaped(R.Current(r))
  {}

  lemma DispatchSaid(r: R.State, m: Msg, fault: R.Fault)
    requires R.Sane(r)
    ensures Said(r, m, R.Dispatch(r, m, fault))
  {
    hide R.ApplyManifest, R.OnBlockHash, R.OnBlockData, CompletionDigest, R.AllShaped;
    match m {
      case ManifestMsg(raw) => ManifestSaid(r, raw, fault);
      case BlockHash(_, _, _) => HashSaid(r, m, fault);
      case _ =>
    }
  }

  // ---------------------------------------------------------------- every event of every run

  lemma InvParts(x: Setup, r: R.State)
    requires Inv(x, r)
    ensures SetupOk(x) && R.Sane(r) && SentOk(x, r.prog, r.out, r.link.sent)
    ensures (r.out.closed ==> r.prog.fileIdx == Count(x))
    ensures r.terms.manifest.Some? ==> r.terms.manifest.value == x.c.manifest
    ensures r.outcome == Running && r.prog.fileOpen && r.terms.manifest.Some? ==>
              r.prog.fileIdx < Count(x) && Held(x, r.prog.fileIdx) <= r.prog.nextBlock < Entry(x, r.prog.fileIdx).blocks
  {
    hide SetupOk, TermsOk, SinksOk, LogOk, AsmOk, Live, AckOk, Held;
    ManifestIs(x, r);
  }

  lemma ManifestIs(x: Setup, r: R.State)
    requires Inv(x, r)
    ensures r.terms.manifest.Some? ==> r.terms.manifest.value == x.c.manifest
  {
    hide SetupOk, SinksOk, SentOk, LogOk, AsmOk, Live;
  }

  lemma OpenBound(x: Setup, r: R.State)
    requires Inv(x, r)
    ensures r.prog.fileOpen ==> r.prog.fileIdx < Count(x) && 0 <= r.prog.nextBlock <= Entry(x, r.prog.fileIdx).blocks
  {
    hide SentOk, LogOk, AsmOk, R.WellFormed, TermsOk, FromStream, PiecesFit, Live;
    if r.prog.fileOpen { assert SinkOk(x, r.prog, R.Stored(r.out, r.prog.fileIdx), r.prog.fileIdx); }
  }

  lemma HeldBound(x: Setup, f: nat)
    requires SetupOk(x) && f < Count(x)
    ensures 0 <= Held(x, f)
  {
    hide SafePath.Validate, Held;
    assert HostHonest(x, f);
  }

  /** A fresh frame taken by a running receiver. */
  lemma FreshReplies(x: Setup, r: R.State, counter: nat, m: Msg, fault: R.Fault, i: nat)
    requires Inv(x, r) && r.outcome == Running && r.link.recvCounter <= counter
    requires R.Sane(r) && Inv(x, R.Handle(r, Sealed(counter, m), fault))
    requires |r.link.sent| <= i < |R.Handle(r, Sealed(counter, m), fault).link.sent|
    ensures var t := R.Handle(r, Sealed(counter, m), fault); Replies(x, m, t.link.sent[i], t)
  {
    hide Inv, R.Dispatch, Said, Held, Advert, SetupOk, R.AllShaped;
    var a, t := R.Accept(r, counter), R.Handle(r, Sealed(counter, m), fault);
    var s := R.Dispatch(a, m, fault);
    InvParts(x, r);
    InvParts(x, t);
    OpenBound(x, t);
    assert AckOk(x, t.prog, t.out, t.link.sent[i]);
    DispatchSaid(a, m, fault);
    SaidAt(a, m, s, i);
    if i < |s.st.link.sent| {
      assert t.link.sent[i] == s.st.link.sent[i];
      if t.link.sent[i].Nack? { HeldBound(x, r.prog.fileIdx); }
    }
  }

  lemma SaidAt(r: R.State, m: Msg, s: R.Step, i: nat)
    requires Said(r, m, s) && |r.link.sent| <= i
    ensures r.link.sent <= s.st.link.sent
    ensures i < |s.st.link.sent| ==>
              match s.st.link.sent[i]
              case Ack(f, b) => m.BlockHash? && m.hashFile == f && m.hashBlock == b
              case Nack(f, b) =>
                && (m.BlockHash? || m.Complete?) && r.prog.fileOpen && s.st.prog.fileOpen && s.st.prog.fileIdx == r.prog.fileIdx
                && f == s.st.prog.fileIdx && b == s.st.prog.nextBlock >= r.prog.nextBlock
                && R.HasCurrent(r) && (b == r.prog.nextBlock || b != R.Current(r).blocks)
              case ResumeMsg(_) => m.ManifestMsg?
              case Done => m.Complete?
              case _ => false
  {}

  /** A settled receiver only answers a repeated Complete, with another Done. */
  lemma SettledReplies(x: Setup, r: R.State, frame: Frame, fault: R.Fault)
    requires Inv(x, r) && r.outcome != Running && R.Sane(r)
    ensures var t := R.Handle(r, frame, fault);
            var again := r.outcome == Succeeded && frame.Sealed? && r.link.recvCounter <= frame.counter && frame.msg.Complete?;
            t.link.sent == r.link.sent + (if again then [Done] else []) && t.outcome == r.outcome
  {
    hide Inv, R.AllShaped;
  }

  /** Over every run against any network, with faults anywhere: whatever the receiver seals while
      it takes a frame answers that frame. An ack repeats the position of a hash and names a
      committed block; a nack names the first missing block of the open file; the resume_state is
      the one advertisement; Done answers Complete after the last file. */
  lemma EveryReplyAnswers(x: Setup, es: seq<Event>, i: nat, fault: R.Fault, k: nat)
    requires SetupOk(x) && i < |Exec(x, es).s.link.sent|
    requires var y := Exec(x, es);
             |y.r.link.sent| <= k < |Apply(x, y, ToReceiver(i, fault)).r.link.sent|
    ensures var y := Exec(x, es);
            var t := Apply(x, y, ToReceiver(i, fault)).r;
            Replies(x, y.s.link.sent[i], t.link.sent[k], t)
  {
    hide Exec, SystemInv, Replies, R.Handle, SetupOk;
    var y := Exec(x, es);
    ReachableKeepsInv(x, es);
    ApplyKeepsInv(x, y, ToReceiver(i, fault));
    SystemParts(x, y);
    var t := Apply(x, y, ToReceiver(i, fault));
    SystemParts(x, t);
    if y.r.outcome == Running && y.r.link.recvCounter <= i {
      FreshReplies(x, y.r, i, y.s.link.sent[i], fault, k);
    } else {
      OldReplies(x, y.r, i, y.s.link.sent[i], fault, k);
    }
  }

  lemma SystemParts(x: Setup, y: System)
    requires SystemInv(x, y)
    ensures Inv(x, y.r) && R.Sane(y.r) && R.WellFormed(y.r)
    ensures forall i :: 0 <= i < |y.s.link.sent| ==> FrameOf(y.s.link, i) == Sealed(i, y.s.link.sent[i])
  {
    hide W.Inv, SetupOk, TermsOk, SinksOk, SentOk, LogOk, AsmOk, Live, Linked, Agreed, AllGenuine;
  }

  /** A replayed frame, or any frame once the receiver has settled. */
  lemma OldReplies(x: Setup, r: R.State, counter: nat, m: Msg, fault: R.Fault, k: nat)
    requires Inv(x, r) && R.Sane(r) && Inv(x, R.Handle(r, Sealed(counter, m), fault))
    requires r.outcome != Running || counter < r.link.recvCounter
    requires |r.link.sent| <= k < |R.Handle(r, Sealed(counter, m), fault).link.sent|
    ensures var t := R.Handle(r, Sealed(counter, m), fault); Replies(x, m, t.link.sent[k], t)
  {
    hide Inv, SetupOk, R.AllShaped, R.Handle;
    if r.outcome == Running {
      ReplaySilent(r, counter, m, fault);
    } else {
      SettledReplies(x, r, Sealed(counter, m), fault);
      var t := R.Handle(r, Sealed(counter, m), fault);
      InvParts(x, t);
      assert AckOk(x, t.prog, t.out, t.link.sent[k]);
    }
  }

  lemma ReplaySilent(r: R.State, counter: nat, m: Msg, fault: R.Fault)
    requires R.Sane(r) && r.outcome == Running && counter < r.link.recvCounter
    ensures R.Handle(r, Sealed(counter, m), fault) == r
  {}

  // ---------------------------------------------------------------- which answer

  /** The first thing a running receiver says to a frame it answers. */
  function Expected(r: R.State, m: Msg): Msg
    requires R.Sane(r)
  {
    match m
    case ManifestMsg(manifest) =>
      if r.terms.advertised.Some? then ResumeMsg(r.terms.advertised.value)
      else
        var seeded := r.terms.host.Some? && r.terms.host.value.transferId == manifest.transferId;
        ResumeMsg(R.Advertisement(r.terms.(active := if seeded then r.terms.host else r.terms.active), manifest))
    case BlockHash(f, b, _) =>
      if f < r.prog.fileIdx || b <= r.prog.nextBlock then Ack(f, b) else Nack(r.prog.fileIdx, r.prog.nextBlock)
    case _ => if A.Unfinished(r) then Nack(r.prog.fileIdx, r.prog.nextBlock) else Done
  }

  lemma HashExpected(r: R.State, m: Msg)
    requires R.Sane(r) && r.outcome == Running && m.BlockHash? && A.AnswersHash(r, m.hashFile, m.hashBlock, m.sha)
    ensures var s := R.OnBlockHash(r, m.hashFile, m.hashBlock, m.sha, R.NoFault);
            r.link.sent + [Expected(r, m)] <= s.st.link.sent
  {
    hide R.AllShaped, R.AfterAck, R.WriteBlock;
    if m.hashFile == r.prog.fileIdx && r.prog.fileOpen && m.hashBlock == r.prog.nextBlock {
      assert Shaped(R.Current(r)) by { CurrentShaped(r); }
      MulNonNegative(r.prog.nextBlock, R.Current(r).blockSize);
      var r2 := AfterWrite(R.SetAsm(r, None), r.intake.asm.value.got);
      AfterAckSaid(r2, R.NoFault);
    }
  }

  lemma ManifestExpected(r: R.State, raw: Manifest)
    requires R.Sane(r) && r.outcome == Running && A.AnswersManifest(r, raw) && SafePath.Validate(raw) == Some(raw)
    requires r.terms.manifest == None ==> r.terms.advertised == None
    ensures r.link.sent + [Expected(r, ManifestMsg(raw))] <= R.ApplyManifest(r, raw, R.NoFault).st.link.sent
  {
    hide SafePath.Validate, R.OpenNextFile, R.SeedOk;
    if r.terms.manifest == None {
      var r1 := R.FirstManifest(r, raw);
      var t := R.AdoptSeed(r1.terms, raw).value;
      MarksSame(t, r.terms.(active := t.active), raw.files);
      assert ResumeMsg(R.Advertisement(t, raw)) == Expected(r, ManifestMsg(raw));
    }
  }

  lemma MarksSame(t: R.Terms, u: R.Terms, files: seq<FileEntry>)
    requires t.active == u.active
    ensures R.Marks(t, files) == R.Marks(u, files)
  {}

  /** A receiver that can send answers exactly the frames it has an answer to, and what it says
      first is the expected thing. */
  lemma AnswerIsExpected(x: Setup, r: R.State, counter: nat, m: Msg)
    requires Inv(x, r) && r.outcome == Running && r.link.recvCounter <= counter && R.Sane(r)
    requires m.ManifestMsg? ==> m.manifest == x.c.manifest
    ensures var t := R.Handle(r, Sealed(counter, m), R.NoFault);
            if A.Answers(r, Sealed(counter, m)) then r.link.sent + [Expected(r, m)] <= t.link.sent
            else t.link.sent == r.link.sent || t.link.sent == r.link.sent + [Fail(Integrity)]
                 || t.link.sent == r.link.sent + [Fail(SinkError)] || t.link.sent == r.link.sent + [Fail(DigestMismatch)]
  {
    hide Inv, R.AllShaped, R.ApplyManifest, R.OnBlockHash, A.AnswersHash, A.AnswersManifest;
    var a := R.Accept(r, counter);
    match m {
      case ManifestMsg(raw) =>
        ManifestTerms(x, r);
        if A.AnswersManifest(a, raw) { ManifestExpected(a, raw); } else { ManifestQuiet(a, raw); }
        AcceptSame(r, counter, m);
      case BlockHash(f, b, sha) =>
        if A.AnswersHash(a, f, b, sha) { HashExpected(a, m); } else { HashQuiet(a, f, b, sha); }
        AcceptSame(r, counter, m);
      case _ =>
    }
  }

  lemma AcceptSame(r: R.State, counter: nat, m: Msg)
    requires R.Sane(r)
    ensures R.Sane(R.Accept(r, counter)) && Expected(R.Accept(r, counter), m) == Expected(r, m)
    ensures m.ManifestMsg? ==> (A.AnswersManifest(R.Accept(r, counter), m.manifest) <==> A.AnswersManifest(r, m.manifest))
    ensures m.BlockHash? ==>
              (A.AnswersHash(R.Accept(r, counter), m.hashFile, m.hashBlock, m.sha)
               <==> A.AnswersHash(r, m.hashFile, m.hashBlock, m.sha))
  {
    hide SafePath.Validate, R.SeedOk, R.AllShaped;
  }

  lemma ManifestTerms(x: Setup, r: R.State)
    requires Inv(x, r)
    ensures SafePath.Validate(x.c.manifest) == Some(x.c.manifest)
    ensures r.terms.manifest == None ==> r.terms.advertised == None
  {
    hide SinksOk, SentOk, LogOk, AsmOk, Live, HostHonest, R.SeedOk;
  }

  lemma ManifestQuiet(r: R.State, raw: Manifest)
    requires !A.AnswersManifest(r, raw)
    ensures R.ApplyManifest(r, raw, R.NoFault).st.link == r.link
    ensures var s := R.ApplyManifest(r, raw, R.NoFault);
            s.Err? ==> s.reason == Integrity || s.reason == SinkError || s.reason == DigestMismatch
  {
    hide SafePath.Validate, R.OpenNextFile, R.SeedOk, R.Advertisement, R.ReusedBytes;
    if SafePath.Validate(raw).Some? {
      var r1 := R.FirstManifest(r, SafePath.Validate(raw).value);
      A.OpenSame(r1);
    }
  }

  lemma HashQuiet(r: R.State, f: int, b: int, sha: Sha)
    requires R.Sane(r) && !A.AnswersHash(r, f, b, sha)
    ensures var s := R.OnBlockHash(r, f, b, sha, R.NoFault);
            s.st.link == r.link && (s.Err? ==> s.reason == Integrity)
  {
    hide R.AllShaped, R.CommitBlock;
  }
}
