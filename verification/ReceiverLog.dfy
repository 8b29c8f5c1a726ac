/** The receiver's writes, file by file: nothing is skipped and nothing is written twice. The
    n-th write to a file in a run is the n-th block after those it held at the start. */
module ReceiverLog {
  import opened Wire
  import opened Geometry
  import opened ReceiverSafety
  import opened Engine
  import S = SenderModel
  import W = SenderWindow
  import R = ReceiverModel
  import SafePath

  /** How many of these writes went to file `f`. */
  function CountOf(ws: seq<R.Write>, f: int): nat {
    if ws == [] then 0
    else CountOf(ws[..|ws| - 1], f) + if ws[|ws| - 1].file == f then 1 else 0
  }

  /** The next block the receiver needs of file `f`. */
  function Frontier(x: Setup, p: R.Progress, f: int): int
    requires 0 <= f < Count(x)
  {
    if f < p.fileIdx then Entry(x, f).blocks
    else if f == p.fileIdx && p.fileOpen then p.nextBlock
    else Held(x, f)
  }

  /** Each file's writes reach from the blocks held at the start to the next block needed. */
  predicate Reaches(x: Setup, p: R.Progress, ws: seq<R.Write>) {
    forall f :: 0 <= f < Count(x) ==> Held(x, f) + CountOf(ws, f) == Frontier(x, p, f)
  }

  /** Each write is the next block of its file. */
  predicate Consecutive(x: Setup, ws: seq<R.Write>) {
    forall i :: 0 <= i < |ws| ==> ws[i].block == Held(x, ws[i].file) + CountOf(ws[..i], ws[i].file)
  }

  predicate Dense(x: Setup, r: R.State) { Reaches(x, r.prog, r.out.writes) && Consecutive(x, r.out.writes) }

  // ---------------------------------------------------------------- one call

  /** A receiver that reads its seed exactly when resuming. */
  predicate Seeded(x: Setup, t: R.Terms) {
    t.manifest == Some(x.c.manifest) && t.active == (if Resuming(x) then x.host else None)
  }

  /** Opening a file starts at the blocks held; leaving one needs all its blocks. */
  lemma {:induction false} OpenDense(x: Setup, r: R.State, fault: R.Fault)
    requires SetupOk(x) && Seeded(x, r.terms) && !r.prog.fileOpen && Reaches(x, r.prog, r.out.writes)
    ensures Reaches(x, R.OpenNextFile(r, fault).st.prog, r.out.writes)
    decreases Count(x) - r.prog.fileIdx
  {
    hide CountOf, Blocks, Committed, SafePath.Validate, S.ConfigOk, R.SeedDigest;
    if R.HasCurrent(r) {
      var f := r.prog.fileIdx;
      HeldIs(x, r.terms, f);
      hide SetupOk, R.HeldBlocks, Held;
      var r1 := R.EnterFile(r);
      assert Reaches(x, r1.prog, r.out.writes);
      var r2 := R.OpenSink(r1);
      if !R.FaultAt(fault, R.AtOpen) && r2.prog.nextBlock >= R.Current(r2).blocks && R.FinishFile(r2, fault).Ok? {
        var r3 := R.FinishFile(r2, fault).st;
        assert Reaches(x, r3.prog, r.out.writes);
        OpenDense(x, r3, fault);
      }
    }
  }

  lemma HeldIs(x: Setup, t: R.Terms, f: nat)
    requires SetupOk(x) && Seeded(x, t) && f < Count(x)
    ensures R.HeldBlocks(t, Entry(x, f)) == Held(x, f) <= Entry(x, f).blocks
  {
    hide Blocks, SafePath.Validate, R.SeedOk;
    assert HostHonest(x, f) && Entry(x, f).idx == f;
  }

  lemma ManifestDense(x: Setup, r: R.State, fault: R.Fault)
    requires Inv(x, r) && r.outcome == Running && Dense(x, r)
    ensures Dense(x, R.ApplyManifest(r, x.c.manifest, fault).st)
  {
    var m := x.c.manifest;
    FreshTerms(x, r);
    hide Inv, SetupOk, R.OpenNextFile, SafePath.Validate, R.SeedOk, R.ReusedBytes, R.Advertisement, Held, CountOf;
    if r.terms.manifest == None {
      var r1 := R.FirstManifest(r, m);
      assert Reaches(x, r1.prog, r1.out.writes);
      if m.transferId == [] {
        OpenDense(x, r1, fault);
      } else if R.AdoptSeed(r1.terms, m).Some? {
        var t := R.AdoptSeed(r1.terms, m).value;
        var rs := R.Advertisement(t, m);
        OpenDense(x, R.Push(r1.(terms := t.(advertised := Some(rs))), ResumeMsg(rs)), fault);
      }
    }
  }

  /** A receiver without its manifest has adopted no seed and opened nothing. */
  lemma FreshTerms(x: Setup, r: R.State)
    requires Inv(x, r)
    ensures SetupOk(x) && SafePath.Validate(x.c.manifest) == Some(x.c.manifest) && r.terms.host == x.host
    ensures r.terms.manifest == None ==> r.terms.active == None && r.prog == R.Progress(0, false, 0, [], [], 0)
  {
    hide SinksOk, SentOk, LogOk, AsmOk, R.WellFormed, Live, R.SeedOk, Settled, HostHonest;
  }

  lemma RunningTerms(x: Setup, r: R.State)
    requires Inv(x, r) && r.outcome == Running && r.terms.manifest.Some?
    ensures SetupOk(x) && Seeded(x, r.terms) && R.Sane(r)
  {
    hide SinksOk, SentOk, LogOk, AsmOk, Live, R.SeedOk, HostHonest;
  }

  lemma CountPush(ws: seq<R.Write>, w: R.Write, f: int)
    ensures CountOf(ws + [w], f) == CountOf(ws, f) + if w.file == f then 1 else 0
  {
    assert (ws + [w])[..|ws|] == ws;
  }

  /** The next block of the current file goes into its sink. */
  lemma WriteDense(x: Setup, r: R.State, t: R.State, w: R.Write)
    requires Dense(x, r) && r.prog.fileOpen && r.prog.fileIdx < Count(x)
    requires w.file == r.prog.fileIdx && w.block == r.prog.nextBlock
    requires t.out.writes == r.out.writes + [w]
    requires t.prog.fileIdx == r.prog.fileIdx && t.prog.fileOpen && t.prog.nextBlock == r.prog.nextBlock + 1
    ensures Dense(x, t)
  {
    hide CountOf, Held;
    var ws := r.out.writes;
    forall f | 0 <= f < Count(x) ensures Held(x, f) + CountOf(t.out.writes, f) == Frontier(x, t.prog, f) {
      CountPush(ws, w, f);
    }
    forall i | 0 <= i < |t.out.writes|
      ensures t.out.writes[i].block == Held(x, t.out.writes[i].file) + CountOf(t.out.writes[..i], t.out.writes[i].file)
    {
      assert t.out.writes[..i] == ws[..i];
      if i == |ws| { assert ws[..i] == ws; }
    }
  }

  lemma AfterAckDense(x: Setup, r: R.State, fault: R.Fault)
    requires SetupOk(x) && Seeded(x, r.terms) && Dense(x, r) && r.prog.fileOpen && R.HasCurrent(r)
    ensures Dense(x, R.AfterAck(r, fault).st)
  {
    hide SetupOk, R.OpenNextFile, Held, CountOf;
    if r.prog.nextBlock == R.Current(r).blocks && R.FinishFile(r, fault).Ok? {
      var r1 := R.FinishFile(r, fault).st;
      assert Reaches(x, r1.prog, r1.out.writes);
      OpenDense(x, r1, fault);
    }
  }

  lemma CommitDense(x: Setup, r: R.State, block: seq<byte>, fault: R.Fault)
    requires SetupOk(x) && Seeded(x, r.terms) && Dense(x, r) && r.prog.fileOpen && R.Sane(r)
    requires R.HasCurrent(r) && 0 <= R.Current(r).blockSize
    ensures Dense(x, R.CommitBlock(r, block, fault).st)
  {
    hide SetupOk, Held, CountOf, R.AfterAck, Dense, R.AllShaped, R.WriteAt;
    MulNonNegative(r.prog.nextBlock, R.Current(r).blockSize);
    var r1 := AfterWrite(r, block);
    WriteDense(x, r, r1, r1.out.writes[|r.out.writes|]);
    AfterAckDense(x, r1, fault);
    SameDense(x, r, r.(prog := r.prog.(digest := r.prog.digest + block)));
  }

  lemma SameDense(x: Setup, r: R.State, t: R.State)
    requires Dense(x, r) && t.out.writes == r.out.writes
    requires t.prog.fileIdx == r.prog.fileIdx && t.prog.fileOpen == r.prog.fileOpen
    requires t.prog.nextBlock == r.prog.nextBlock
    ensures Dense(x, t)
  {
    hide CountOf, Held;
  }

  lemma VerifiedDense(x: Setup, r: R.State, file: int, block: int, data: seq<byte>, fault: R.Fault)
    requires SetupOk(x) && Seeded(x, r.terms) && Dense(x, r) && R.Sane(r)
    ensures Dense(x, R.OnVerified(r, file, block, data, fault).st)
  {
    hide SetupOk, Seeded, Dense, R.CommitBlock, R.AllShaped;
    var t := R.OnVerified(r, file, block, data, fault).st;
    if r.prog.fileOpen && file == r.prog.fileIdx && block == r.prog.nextBlock {
      assert 0 <= R.Current(r).blockSize by { CurrentShaped(r); }
      CommitDense(x, r, data, fault);
    } else {
      SameDense(x, r, t);
    }
  }

  lemma CurrentShaped(r: R.State)
    requires R.Sane(r) && R.HasCurrent(r)
    ensures Shaped(R.Current(r))
  {}

  lemma HashDense(x: Setup, r: R.State, file: int, block: int, sha: Sha, fault: R.Fault)
    requires Inv(x, r) && r.outcome == Running && Dense(x, r) && R.Sane(r)
    ensures Dense(x, R.OnBlockHash(r, file, block, sha, fault).st)
  {
    hide Inv, SetupOk, Seeded, Dense, R.OnVerified, R.AllShaped;
    SameDense(x, r, r);
    if r.terms.manifest.Some? && r.intake.asm.Some? {
      RunningTerms(x, r);
      SameDense(x, r, R.SetAsm(r, None));
      VerifiedDense(x, R.SetAsm(r, None), file, block, r.intake.asm.value.got, fault);
    }
  }

  /** The remaining messages change neither progress nor the log. */
  lemma OtherDense(x: Setup, r: R.State, m: Msg, fault: R.Fault)
    requires Dense(x, r) && R.Sane(r) && !m.ManifestMsg? && !m.BlockHash?
    ensures Dense(x, R.Dispatch(r, m, fault).st)
  {
    hide Dense, CompletionDigest, R.AllShaped;
    SameDense(x, r, R.Dispatch(r, m, fault).st);
  }

  lemma DispatchDense(x: Setup, r: R.State, m: Msg, fault: R.Fault)
    requires Inv(x, r) && r.outcome == Running && Dense(x, r) && (m.ManifestMsg? ==> m.manifest == x.c.manifest)
    ensures R.Sane(r) && Dense(x, R.Dispatch(r, m, fault).st)
  {
    InvSane(x, r);
    hide Inv, Dense, R.ApplyManifest, R.OnBlockHash, R.OnBlockData, R.OnComplete, R.OnControl, R.Sane;
    match m {
      case ManifestMsg(raw) => ManifestDense(x, r, fault);
      case BlockHash(file, block, sha) => HashDense(x, r, file, block, sha, fault);
      case _ => OtherDense(x, r, m, fault);
    }
  }

  lemma InvSane(x: Setup, r: R.State)
    requires Inv(x, r)
    ensures R.Sane(r)
  {
    hide SetupOk, TermsOk, SinksOk, SentOk, LogOk, AsmOk, Live;
  }

  lemma HandleDense(x: Setup, r: R.State, frame: Frame, fault: R.Fault)
    requires Inv(x, r) && Dense(x, r)
    requires (frame.Sealed? && frame.msg.ManifestMsg? ==> frame.msg.manifest == x.c.manifest)
    ensures R.Sane(r) && Dense(x, R.Handle(r, frame, fault))
  {
    InvSane(x, r);
    if r.outcome == Running && frame.Sealed? && r.link.recvCounter <= frame.counter {
      var a := R.Accept(r, frame.counter);
      AcceptInv(x, r, frame.counter);
      hide Inv, Dense, R.Dispatch;
      SameDense(x, r, a);
      DispatchDense(x, a, frame.msg, fault);
      SameDense(x, R.Dispatch(a, frame.msg, fault).st, R.Handle(r, frame, fault));
    } else {
      hide Inv, Dense, R.Dispatch;
      SameDense(x, r, R.Handle(r, frame, fault));
    }
  }

  lemma AcceptInv(x: Setup, r: R.State, counter: nat)
    requires Inv(x, r) && r.outcome == Running
    ensures Inv(x, R.Accept(r, counter))
  {
    hide SetupOk, R.SeedOk;
    BaseAsm(x, r);
    hide Base, AsmOk, Inv;
    InvBase(x, r);
    FrameKeepsBase(x, r, R.Accept(r, counter));
  }

  // ---------------------------------------------------------------- runs

  lemma ApplyDense(x: Setup, y: System, e: Event)
    requires SystemInv(x, y) && Dense(x, y.r)
    ensures Dense(x, Apply(x, y, e).r)
  {
    assert R.WellFormed(y.r) by { InvWellFormed(x, y.r); }
    hide Dense, Inv, W.Inv, SetupOk, Linked, Agreed, R.Handle, S.Handle, S.Apply, R.WellFormed;
    match e {
      case ToReceiver(i, fault) =>
        if i < |y.s.link.sent| {
          assert Genuine(x.c, y.s.link.sent[i]);
          HandleDense(x, y.r, FrameOf(y.s.link, i), fault);
        }
      case ForgedToReceiver(claimed, fault) => HandleDense(x, y.r, Forged(claimed), fault);
      case _ => SameDense(x, y.r, Apply(x, y, e).r);
    }
  }

  lemma InvWellFormed(x: Setup, r: R.State)
    requires Inv(x, r)
    ensures R.WellFormed(r)
  {
    hide SetupOk, TermsOk, SinksOk, SentOk, LogOk, AsmOk, Live;
  }

  lemma StartDense(x: Setup)
    requires SetupOk(x)
    ensures Dense(x, Init(x).r)
  {
    hide SetupOk, Held;
  }

  /** In every run the writes to each file are its blocks from the first one it did not hold,
      one after the other up to the next one needed. */
  lemma {:induction false} WritesAreConsecutive(x: Setup, es: seq<Event>)
    requires SetupOk(x)
    ensures var r := Exec(x, es).r; Reaches(x, r.prog, r.out.writes) && Consecutive(x, r.out.writes)
    decreases |es|
  {
    hide SetupOk, SystemInv, Reaches, Consecutive, Apply;
    if es == [] {
      StartDense(x);
    } else {
      WritesAreConsecutive(x, es[..|es| - 1]);
      ReachableKeepsInv(x, es[..|es| - 1]);
      ApplyDense(x, Exec(x, es[..|es| - 1]), es[|es| - 1]);
    }
  }
}
