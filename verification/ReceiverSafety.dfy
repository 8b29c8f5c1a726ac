/** What the receiver guarantees against any network: whatever authentic frames arrive, in
    whatever order, every sink holds exactly a prefix of whole blocks, every finished file
    matches the manifest digest, and nothing is acknowledged before it is committed. */
module ReceiverSafety {
  import opened Wire
  import opened Geometry
  import opened ReceiverModel
  import S = SenderModel
  import SafePath

  /** One transfer: what the sender streams, what the receiving host claims to hold, and what
      its destination really holds when the transfer starts. */
  datatype Setup = Setup(c: S.Config, host: Option<ReceiverResume>, stored: map<nat, seq<byte>>)

  function Count(x: Setup): nat { |x.c.manifest.files| }

  function Entry(x: Setup, f: int): FileEntry
    requires 0 <= f < Count(x)
  {
    x.c.manifest.files[f]
  }

  function Stored0(x: Setup, f: nat): seq<byte> { if f in x.stored then x.stored[f] else [] }

  /** The host's seed is for this transfer and passes the receiver's checks. */
  predicate Resuming(x: Setup) {
    && x.c.manifest.transferId != [] && x.host.Some?
    && x.host.value.transferId == x.c.manifest.transferId
    && SeedOk(x.c.manifest, x.host.value)
  }

  function Held(x: Setup, f: int): int {
    if Resuming(x) && f in x.host.value.files then x.host.value.files[f].haveBlocks else 0
  }

  /** The destination contract: a file holds exactly the blocks the host claims, and the seed
      digest has been fed exactly those bytes. */
  predicate HostHonest(x: Setup, f: int)
    requires 0 <= f < Count(x)
  {
    var e := Entry(x, f);
    && Shaped(e)
    && 0 <= Held(x, f) <= e.blocks
    && |Stored0(x, f)| == Pos(e.size, e.blockSize, Held(x, f))
    && (Resuming(x) ==> f in x.host.value.files)
    && (Resuming(x) ==>
          || x.host.value.files[f].seed == Some(Stored0(x, f))
          || (x.host.value.files[f].seed == None && Stored0(x, f) == []))
  }

  predicate SetupOk(x: Setup) {
    && S.ConfigOk(x.c)
    && SafePath.Validate(x.c.manifest) == Some(x.c.manifest)
    && (forall f :: 0 <= f < Count(x) ==> HostHonest(x, f))
  }

  /** A message the sender may have sealed. */
  predicate Genuine(c: S.Config, m: Msg) {
    match m
    case ManifestMsg(manifest) => manifest == c.manifest
    case BlockHash(f, b, sha) => S.ValidFile(c, f) && 0 <= b < S.Pieces(c, f) && sha == Sha(S.Piece(c, f, b))
    case Complete(d) => d == CompletionDigest(c.manifest.files)
    case _ => true
  }

  // ---------------------------------------------------------------- invariant

  /** The persisted prefix followed by the sender's stream. */
  predicate FromStream(x: Setup, f: nat, content: seq<byte>)
    requires S.ConfigOk(x.c) && f < Count(x)
  {
    var s0 := Stored0(x, f);
    && s0 <= content
    && (|content| > |s0| ==> |content| <= |x.c.streams[f]| && content[|s0|..] == x.c.streams[f][|s0|..|content|])
  }

  /** The sender's pieces up to `k`, beyond those held at the start, have the lengths the
      manifest gives those blocks. */
  predicate PiecesFit(x: Setup, f: nat, k: int)
    requires S.ConfigOk(x.c) && f < Count(x)
  {
    forall b :: Held(x, f) <= b < k && 0 <= b ==>
      |S.Piece(x.c, f, b)|
      == Pos(Entry(x, f).size, Entry(x, f).blockSize, b + 1) - Pos(Entry(x, f).size, Entry(x, f).blockSize, b)
  }

  predicate SinkOk(x: Setup, p: Progress, content: seq<byte>, f: nat)
    requires S.ConfigOk(x.c) && f < Count(x)
  {
    var e := Entry(x, f);
    && FromStream(x, f, content)
    && (f < p.fileIdx ==> |content| == e.size && Sha(content) == e.digest && PiecesFit(x, f, e.blocks))
    && (f == p.fileIdx && p.fileOpen ==>
          && Shaped(e) && 0 <= p.nextBlock <= e.blocks && |content| == Pos(e.size, e.blockSize, p.nextBlock)
          && PiecesFit(x, f, p.nextBlock))
    && (f > p.fileIdx || (f == p.fileIdx && !p.fileOpen) ==> content == Stored0(x, f))
  }

  predicate SinksOk(x: Setup, p: Progress, o: Output)
    requires S.ConfigOk(x.c)
  {
    && p.fileIdx <= Count(x)
    && (forall f :: 0 <= f < Count(x) ==> SinkOk(x, p, Stored(o, f), f))
    && (p.fileOpen ==> p.fileIdx < Count(x))
  }

  function Finished(x: Setup, f: nat): int
    requires f <= Count(x)
  {
    if f == 0 then 0 else Finished(x, f - 1) + Entry(x, f - 1).size
  }

  /** While the receiver runs, its digest has been fed exactly the committed bytes. */
  predicate Live(x: Setup, p: Progress, o: Output)
    requires S.ConfigOk(x.c) && p.fileIdx <= Count(x)
  {
    && (p.fileOpen ==> p.digest == Stored(o, p.fileIdx))
    && p.acknowledged == Finished(x, p.fileIdx) + (if p.fileOpen then |Stored(o, p.fileIdx)| else 0)
  }

  /** Block `b` of file `f` is verified and in its sink. */
  predicate IsCommitted(x: Setup, p: Progress, f: int, b: int) {
    && 0 <= f < Count(x) && 0 <= b < Entry(x, f).blocks
    && (f < p.fileIdx || (f == p.fileIdx && p.fileOpen && b < p.nextBlock))
  }

  predicate AckOk(x: Setup, p: Progress, o: Output, m: Msg) {
    && (m.Ack? ==> IsCommitted(x, p, m.ackFile, m.ackBlock))
    && (m.Done? ==> o.closed)
    && (m.ResumeMsg? ==> x.c.manifest.transferId != [] && m.state == Advert(x))
  }

  predicate SentOk(x: Setup, p: Progress, o: Output, sent: seq<Msg>) {
    forall i :: 0 <= i < |sent| ==> AckOk(x, p, o, sent[i])
  }

  predicate Precedes(a: Write, b: Write) { a.file < b.file || (a.file == b.file && a.block < b.block) }

  predicate WriteOk(x: Setup, p: Progress, w: Write) {
    && IsCommitted(x, p, w.file, w.block)
    && S.ValidFile(x.c, w.file)
    && w.offset == w.block * Entry(x, w.file).blockSize
    && w.bytes == S.Piece(x.c, w.file, w.block)
  }

  /** The write log: each block once, in increasing order, at its own offset. */
  predicate LogOk(x: Setup, p: Progress, ws: seq<Write>) {
    && (forall i :: 0 <= i < |ws| ==> WriteOk(x, p, ws[i]))
    && (forall i, j :: 0 <= i < j < |ws| ==> Precedes(ws[i], ws[j]))
  }

  predicate AsmOk(x: Setup, asm: Option<Assembly>) {
    asm.Some? ==>
      var a := asm.value;
      a.file < Count(x) && Shaped(Entry(x, a.file)) && a.block < Entry(x, a.file).blocks
      && a.size == BlockLength(Entry(x, a.file), a.block)
  }

  /** The one resume_state this receiver may ever send. */
  function Advert(x: Setup): ResumeState {
    ResumeState(x.c.manifest.transferId, Some(Fingerprint(x.c.manifest)),
                Marks(Terms(x.host, Some(x.c.manifest), if Resuming(x) then x.host else None, None, 0), x.c.manifest.files))
  }

  predicate TermsOk(x: Setup, t: Terms) {
    && t.host == x.host
    && (t.manifest.Some? ==> t.manifest.value == x.c.manifest)
    && (t.active.Some? ==> t.active == x.host && Resuming(x))
    && (t.advertised.Some? ==> t.manifest.Some? && t.advertised.value == Advert(x) && x.c.manifest.transferId != [])
    && Baseline(x, t)
  }

  /** The seed is adopted, and the reused bytes counted, together with the advertisement. */
  predicate Baseline(x: Setup, t: Terms) {
    if t.advertised == None then t.active == None && t.reused == 0
    else t.active == (if Resuming(x) then x.host else None) && t.reused == ReusedBytes(t, x.c.manifest.files)
  }

  /** A resume_state was sent only once it was recorded. */
  predicate Recorded(r: State) {
    forall i :: 0 <= i < |r.link.sent| && r.link.sent[i].ResumeMsg? ==> r.terms.advertised.Some?
  }

  /** The part of the invariant that survives errors. */
  predicate Base(x: Setup, r: State) {
    && SetupOk(x)
    && WellFormed(r)
    && TermsOk(x, r.terms)
    && SinksOk(x, r.prog, r.out)
    && SentOk(x, r.prog, r.out, r.link.sent)
    && LogOk(x, r.prog, r.out.writes)
    && AsmOk(x, r.intake.asm)
    && (r.terms.manifest == None ==> r.prog == Progress(0, false, 0, [], [], 0) && !r.out.closed)
    && (r.out.closed ==> r.prog.fileIdx == Count(x))
    && (r.outcome == Succeeded ==> r.out.closed)
    && Recorded(r)
  }

  /** Between calls a running receiver that has its manifest either waits for a block of the
      current file or has finished every file, and uses the seed exactly when resuming. */
  predicate Settled(x: Setup, t: Terms, p: Progress) {
    && t.active == (if Resuming(x) then x.host else None)
    && (if p.fileOpen then p.fileIdx < Count(x) && p.nextBlock < Entry(x, p.fileIdx).blocks else p.fileIdx == Count(x))
    && (p.fileOpen ==> Held(x, p.fileIdx) <= p.nextBlock)
    && (x.c.manifest.transferId != [] ==> t.advertised.Some?)
  }

  predicate Inv(x: Setup, r: State) {
    && Base(x, r)
    && (r.outcome == Running ==> Live(x, r.prog, r.out))
    && (r.outcome == Running && r.terms.manifest.Some? ==> Settled(x, r.terms, r.prog))
  }

  predicate StepOk(x: Setup, s: Step) {
    && Base(x, s.st)
    && (s.Ok? ==> Inv(x, s.st))
  }

  lemma InitInv(x: Setup)
    requires SetupOk(x)
    ensures Inv(x, Init(x.host, x.stored))
  {
    hide Pos, Blocks, SeedOk, SafePath.Validate;
  }

  // ---------------------------------------------------------------- monotonicity

  lemma HistoryMonotone(x: Setup, p: Progress, o: Output, q: Progress, o': Output, sent: seq<Msg>, ws: seq<Write>)
    requires Advances(p, q) && (o.closed ==> o'.closed)
    requires SentOk(x, p, o, sent) && LogOk(x, p, ws)
    ensures SentOk(x, q, o', sent) && LogOk(x, q, ws)
  {
    hide Advert, S.Piece;
    forall i | 0 <= i < |sent| ensures AckOk(x, q, o', sent[i]) { assert AckOk(x, p, o, sent[i]); }
    forall i | 0 <= i < |ws| ensures WriteOk(x, q, ws[i]) { assert WriteOk(x, p, ws[i]); }
  }

  /** Sealing one more message, and changing nothing but the intake, the pause flag and the
      outcome. */
  lemma PushKeepsBase(x: Setup, r: State, t: State, m: Msg)
    requires Base(x, r) && AckOk(x, r.prog, r.out, m)
    requires t.terms == r.terms && t.prog == r.prog && t.out == r.out && t.link.sent == r.link.sent + [m]
    requires AsmOk(x, t.intake.asm) && (t.outcome == Succeeded ==> t.out.closed)
    requires m.ResumeMsg? ==> r.terms.advertised.Some?
    ensures Base(x, t)
    ensures t.outcome == Running && r.outcome == Running && Inv(x, r) ==> Inv(x, t)
  {
    hide SinksOk, LogOk, AckOk, AsmOk, Live, TermsOk, SetupOk, Settled;
    hide SeedOk, AllShaped;
    assert SentOk(x, t.prog, t.out, t.link.sent);
  }

  lemma FrameKeepsBase(x: Setup, r: State, t: State)
    requires Base(x, r)
    requires t.terms == r.terms && t.prog == r.prog && t.out == r.out && t.link.sent == r.link.sent
    requires AsmOk(x, t.intake.asm) && (t.outcome == Succeeded ==> t.out.closed)
    ensures Base(x, t)
    ensures t.outcome == Running && r.outcome == Running && Inv(x, r) ==> Inv(x, t)
    ensures t.outcome != Running ==> Inv(x, t)
  {
    hide SinksOk, LogOk, SentOk, AsmOk, Live, TermsOk, SetupOk, Settled;
    hide SeedOk, AllShaped;
  }

  lemma SettleKeepsInv(x: Setup, s: Step)
    requires StepOk(x, s)
    ensures Inv(x, Settle(s))
  {
    if s.Err? && s.st.outcome == Running {
      hide Base;
      PushKeepsBase(x, s.st, AbortWith(s.st, s.reason, true), Fail(s.reason)) by {
        assert AsmOk(x, s.st.intake.asm) by { BaseAsm(x, s.st); }
      }
    }
  }

  lemma BaseAsm(x: Setup, r: State)
    requires Base(x, r)
    ensures AsmOk(x, r.intake.asm)
  {}

  // ---------------------------------------------------------------- files

  /** A running receiver that has just finished a file, or is about to open its first. */
  predicate BetweenFiles(x: Setup, r: State) {
    && Base(x, r) && r.outcome == Running && Live(x, r.prog, r.out)
    && r.terms.manifest.Some? && !r.prog.fileOpen
    && r.terms.active == (if Resuming(x) then x.host else None)
    && (x.c.manifest.transferId != [] ==> r.terms.advertised.Some?)
  }

  lemma EnterFileSound(x: Setup, r: State)
    requires BetweenFiles(x, r) && HasCurrent(r)
    ensures var r1 := EnterFile(r);
            && Base(x, r1) && Live(x, r1.prog, r1.out)
            && r1.prog.nextBlock == Held(x, r.prog.fileIdx)
  {
    hide SafePath.Validate, Blocks, LogOk, SentOk, AsmOk;
    var f := r.prog.fileIdx;
    var e := Entry(x, f);
    assert HostHonest(x, f) && e.idx == f && 0 <= Held(x, f) <= e.blocks;
    assert HeldBlocks(r.terms, e) == Held(x, f);
    CommittedIsPos(e, Held(x, f));
    assert SinkOk(x, r.prog, Stored(r.out, f), f);
    assert Stored(r.out, f) == Stored0(x, f);
    assert SeedDigest(r.terms, e) == Stored0(x, f);
    var r1 := EnterFile(r);
    hide Committed, Held, Resuming, SeedOk, HostHonest, AllShaped;
    assert SinksOk(x, r1.prog, r1.out) by {
      forall g | 0 <= g < Count(x) ensures SinkOk(x, r1.prog, Stored(r1.out, g), g) {
        assert SinkOk(x, r.prog, Stored(r.out, g), g);
      }
    }
    HistoryMonotone(x, r.prog, r.out, r1.prog, r1.out, r.link.sent, r.out.writes);
  }

  lemma OpenSinkKeeps(x: Setup, r: State)
    requires Base(x, r) && Live(x, r.prog, r.out)
    ensures Base(x, OpenSink(r)) && Live(x, OpenSink(r).prog, OpenSink(r).out)
  {
    assert S.ConfigOk(x.c);
    hide SetupOk, TermsOk, AsmOk, SeedOk, AllShaped, SinkOk;
    var o, o' := r.out, OpenSink(r).out;
    forall g | 0 <= g < Count(x) ensures SinkOk(x, r.prog, Stored(o', g), g) {
      assert SinkOk(x, r.prog, Stored(o, g), g);
    }
    HistoryMonotone(x, r.prog, o, r.prog, o', r.link.sent, o.writes);
  }

  /** A file whose digest matches is behind the receiver for good. */
  lemma FinishFileSound(x: Setup, r: State, fault: Fault)
    requires Base(x, r) && Live(x, r.prog, r.out) && r.outcome == Running && r.terms.manifest.Some?
    requires r.prog.fileOpen && HasCurrent(r) && r.prog.nextBlock == Current(r).blocks
    requires r.terms.active == (if Resuming(x) then x.host else None)
    requires x.c.manifest.transferId != [] ==> r.terms.advertised.Some?
    ensures FinishFile(r, fault).st == r || BetweenFiles(x, FinishFile(r, fault).st)
    ensures FinishFile(r, fault).Err? ==> FinishFile(r, fault).st == r
    ensures FinishFile(r, fault).Ok? ==>
              && BetweenFiles(x, FinishFile(r, fault).st)
              && FinishFile(r, fault).st.prog.fileIdx == r.prog.fileIdx + 1
              && FinishFile(r, fault).st.terms == r.terms
  {
    hide SafePath.Validate, AsmOk, LogOk, SentOk, Resuming, Advert, SeedOk, AllShaped, FromStream;
    var f := r.prog.fileIdx;
    assert SinkOk(x, r.prog, Stored(r.out, f), f);
    BlockCountBound(Entry(x, f).size, Entry(x, f).blockSize);
    if FinishFile(r, fault).Ok? {
      var r1 := FinishFile(r, fault).st;
      forall g | 0 <= g < Count(x) ensures SinkOk(x, r1.prog, Stored(r1.out, g), g) {
        assert SinkOk(x, r.prog, Stored(r.out, g), g);
      }
      HistoryMonotone(x, r.prog, r.out, r1.prog, r1.out, r.link.sent, r.out.writes);
      hide SetupOk, SinkOk;
    }
  }

  lemma {:induction false} OpenNextFileSound(x: Setup, r: State, fault: Fault)
    requires BetweenFiles(x, r)
    ensures StepOk(x, OpenNextFile(r, fault))
    ensures OpenNextFile(r, fault).st.terms == r.terms
    decreases Count(x) - r.prog.fileIdx
  {
    hide Base, Live, Resuming, Held, Committed;
    if HasCurrent(r) {
      EnterFileSound(x, r);
      var r1 := EnterFile(r);
      OpenSinkKeeps(x, r1);
      var r2 := OpenSink(r1);
      CurrentHeld(x, r);
      if !FaultAt(fault, AtOpen) && r2.prog.nextBlock >= Current(r2).blocks {
        FinishFileSound(x, r2, fault);
        if FinishFile(r2, fault).Ok? {
          OpenNextFileSound(x, FinishFile(r2, fault).st, fault);
        }
      }
    } else {
      AllFilesDone(x, r);
    }
  }

  lemma CurrentHeld(x: Setup, r: State)
    requires BetweenFiles(x, r) && HasCurrent(r)
    ensures Held(x, r.prog.fileIdx) <= Entry(x, r.prog.fileIdx).blocks
    ensures r.terms.manifest.value == x.c.manifest
  {
    assert HostHonest(x, r.prog.fileIdx);
  }

  lemma AllFilesDone(x: Setup, r: State)
    requires BetweenFiles(x, r) && !HasCurrent(r)
    ensures Inv(x, r.(prog := r.prog.(fileOpen := false, digest := [])))
  {
    assert S.ConfigOk(x.c);
    hide SetupOk, AsmOk, SeedOk, AllShaped, Advert, Resuming, FromStream;
    var r1 := r.(prog := r.prog.(fileOpen := false, digest := []));
    forall g | 0 <= g < Count(x) ensures SinkOk(x, r1.prog, Stored(r1.out, g), g) {
      assert SinkOk(x, r.prog, Stored(r.out, g), g);
    }
    HistoryMonotone(x, r.prog, r.out, r1.prog, r1.out, r.link.sent, r.out.writes);
  }

  // ---------------------------------------------------------------- handlers

  lemma AdvertIsStable(x: Setup, t: Terms)
    requires t.active == (if Resuming(x) then x.host else None)
    ensures Marks(t, x.c.manifest.files) == Advert(x).files
  {}

  lemma FirstManifestSound(x: Setup, r: State)
    requires Inv(x, r) && r.outcome == Running && r.terms.manifest == None
    ensures var r1 := FirstManifest(r, x.c.manifest);
            Base(x, r1) && Live(x, r1.prog, r1.out) && r1.terms.active == None && r1.terms.advertised == None
  {
    hide AsmOk, SinkOk, SentOk, LogOk, SeedOk, Advert, SafePath.Validate, HostHonest;
    assert AllShaped(x.c.manifest) by {
      forall i | 0 <= i < Count(x) ensures Shaped(Entry(x, i)) { }
    }
    assert r.prog == r.prog.(digests := []);
  }

  lemma ApplyManifestSound(x: Setup, r: State, fault: Fault)
    requires Inv(x, r) && r.outcome == Running
    ensures StepOk(x, ApplyManifest(r, x.c.manifest, fault))
  {
    var m := x.c.manifest;
    assert SafePath.Validate(m) == Some(m) && TermsOk(x, r.terms) && AsmOk(x, r.intake.asm);
    if r.terms.manifest.Some? {
      if m.transferId != [] && r.terms.advertised.Some? {
        var rs := ResumeMsg(r.terms.advertised.value);
        hide Inv, Base, SafePath.Validate;
        PushKeepsBase(x, r, Push(r, rs), rs) by { InvBase(x, r); }
      }
    } else {
      FirstManifestSound(x, r);
      var r1 := FirstManifest(r, m);
      if m.transferId == [] {
        hide Base, Live, SafePath.Validate, SeedOk;
        OpenNextFileSound(x, r1, fault);
      } else {
        FreshTermsSound(x, r1, fault);
      }
    }
    hide Inv, Base, SafePath.Validate, OpenNextFile;
  }

  lemma InvBase(x: Setup, r: State)
    requires Inv(x, r)
    ensures Base(x, r)
  {}

  lemma {:induction false} ReusedSame(t: Terms, u: Terms, files: seq<FileEntry>)
    ensures t.active == u.active ==> ReusedBytes(t, files) == ReusedBytes(u, files)
    decreases |files|
  {
    if files != [] { ReusedSame(t, u, files[..|files| - 1]); }
  }

  lemma {:induction false} NothingReused(t: Terms, files: seq<FileEntry>)
    requires t.active == None
    ensures ReusedBytes(t, files) == 0
    decreases |files|
  {
    if files != [] { NothingReused(t, files[..|files| - 1]); }
  }

  /** The seed is adopted exactly when it validates, and then advertised as it is. */
  lemma FreshTermsSound(x: Setup, r: State, fault: Fault)
    requires Base(x, r) && Live(x, r.prog, r.out) && r.outcome == Running && !r.prog.fileOpen
    requires r.terms.manifest == Some(x.c.manifest) && x.c.manifest.transferId != []
    requires r.terms.active == None && r.terms.advertised == None
    ensures AdoptSeed(r.terms, x.c.manifest).Some? ==>
              var t := AdoptSeed(r.terms, x.c.manifest).value;
              var rs := Advertisement(t, x.c.manifest);
              var r2 := Push(r.(terms := t.(advertised := Some(rs))), ResumeMsg(rs));
              Base(x, r2) && StepOk(x, OpenNextFile(r2, fault))
  {
    if AdoptSeed(r.terms, x.c.manifest).Some? {
      var t := AdoptSeed(r.terms, x.c.manifest).value;
      var rs := Advertisement(t, x.c.manifest);
      AdvertIsStable(x, t);
      var r1 := r.(terms := t.(advertised := Some(rs)));
      assert r.terms.reused == 0 && TermsOk(x, r.terms);
      assert Baseline(x, r1.terms) by {
        hide SeedOk, Base;
        ReusedSame(t, r1.terms, x.c.manifest.files);
        ReusedSame(r.terms.(active := r.terms.host), t, x.c.manifest.files);
        NothingReused(r.terms, x.c.manifest.files);
      }
      assert Base(x, r1) by { hide SinksOk, SentOk, LogOk, AsmOk, SeedOk, Live, Baseline; }
      assert BetweenFiles(x, Push(r1, ResumeMsg(rs))) by {
        hide SinksOk, LogOk, AsmOk, SeedOk, Live;
        PushKeepsBase(x, r1, Push(r1, ResumeMsg(rs)), ResumeMsg(rs));
      }
      hide BetweenFiles, Base;
      OpenNextFileSound(x, Push(r1, ResumeMsg(rs)), fault);
      BetweenBase(x, Push(r1, ResumeMsg(rs)));
    }
  }

  lemma BetweenBase(x: Setup, r: State)
    requires BetweenFiles(x, r)
    ensures Base(x, r)
  {}

  lemma OnBlockDataSound(x: Setup, r: State, file: nat, block: nat, off: nat, payload: seq<byte>)
    requires Inv(x, r) && r.outcome == Running
    ensures StepOk(x, OnBlockData(r, file, block, off, payload))
  {
    assert TermsOk(x, r.terms) && AsmOk(x, r.intake.asm) && S.ConfigOk(x.c);
    var t := OnBlockData(r, file, block, off, payload).st;
    assert AsmOk(x, t.intake.asm);
    InvBase(x, r);
    hide Inv, Base, AsmOk;
    FrameKeepsBase(x, r, t);
  }

  lemma RequestMissingSound(x: Setup, r: State, fault: Fault)
    requires Inv(x, r) && r.outcome == Running
    ensures StepOk(x, RequestMissing(r, fault))
  {
    InvBase(x, r);
    BaseAsm(x, r);
    hide Inv, Base, AsmOk;
    var m := Nack(r.prog.fileIdx, r.prog.nextBlock);
    var t := Push(r.(intake := r.intake.(nackOutstanding := r.prog.nextBlock)), m);
    PushKeepsBase(x, r, t, m);
  }

  lemma AckSound(x: Setup, r: State, file: int, block: int, fault: Fault)
    requires Inv(x, r) && r.outcome == Running && IsCommitted(x, r.prog, file, block)
    ensures StepOk(x, Send(r, Ack(file, block), fault))
  {
    InvBase(x, r);
    BaseAsm(x, r);
    hide Inv, Base, AsmOk;
    PushKeepsBase(x, r, Push(r, Ack(file, block)), Ack(file, block));
  }

  /** Block `b` starts and ends where both the manifest and the stream say it does. */
  lemma BlockAligned(x: Setup, f: nat, b: nat, block: seq<byte>)
    requires f < Count(x) && S.ValidFile(x.c, f) && b < Entry(x, f).blocks && b < S.Pieces(x.c, f)
    requires block == S.Piece(x.c, f, b) && |block| == BlockLength(Entry(x, f), b)
    ensures var e, n := Entry(x, f), |x.c.streams[f]|;
            && Pos(e.size, e.blockSize, b) == b * e.blockSize
            && b * e.blockSize + |block| == Pos(e.size, e.blockSize, b + 1) <= n
            && block == x.c.streams[f][b * e.blockSize..b * e.blockSize + |block|]
  {
    var e, stream := Entry(x, f), x.c.streams[f];
    BlockRange(e.size, e.blockSize, b);
    BlockRange(|stream|, e.blockSize, b);
    BlockLengthIsPos(e, b);
    PosBounds(|stream|, e.blockSize, b);
    hide Pos, Blocks, BlockLength;
  }

  lemma SuffixOfAppend(a: seq<byte>, b: seq<byte>, k: nat)
    requires k <= |a|
    ensures (a + b)[..k] == a[..k] && (a + b)[k..] == a[k..] + b
  {}

  lemma SlicesJoin(s: seq<byte>, i: nat, j: nat, k: nat)
    requires i <= j <= k <= |s|
    ensures s[i..j] + s[j..k] == s[i..k]
  {}

  lemma WriteAtEnd(content: seq<byte>, block: seq<byte>)
    ensures WriteAt(content, |content|, block) == content + block
  {}

  lemma AppendToStream(x: Setup, f: nat, content: seq<byte>, block: seq<byte>)
    requires S.ConfigOk(x.c) && f < Count(x) && FromStream(x, f, content)
    requires |content| + |block| <= |x.c.streams[f]|
    requires block == x.c.streams[f][|content|..|content| + |block|]
    ensures WriteAt(content, |content|, block) == content + block
    ensures FromStream(x, f, content + block)
  {
    WriteAtEnd(content, block);
    hide WriteAt;
    var s0, stream := Stored0(x, f), x.c.streams[f];
    SuffixOfAppend(content, block, |s0|);
    SlicesJoin(stream, |s0|, |content|, |content| + |block|);
    assert content[|s0|..] == stream[|s0|..|content|];
  }

  /** The state after the sink accepted the next block of the current file. */
  function AfterWrite(r: State, block: seq<byte>): State
    requires HasCurrent(r) && 0 <= r.prog.nextBlock && 0 <= Current(r).blockSize
  {
    MulNonNegative(r.prog.nextBlock, Current(r).blockSize);
    Push(Committing(r.(prog := r.prog.(digest := r.prog.digest + block)), r.prog.nextBlock * Current(r).blockSize, block),
         Ack(r.prog.fileIdx, r.prog.nextBlock))
  }

  predicate NextBlock(x: Setup, r: State, block: seq<byte>) {
    && r.prog.fileOpen && r.prog.fileIdx < Count(x) && S.ValidFile(x.c, r.prog.fileIdx)
    && 0 <= r.prog.nextBlock < S.Pieces(x.c, r.prog.fileIdx)
    && r.prog.nextBlock < Entry(x, r.prog.fileIdx).blocks
    && block == S.Piece(x.c, r.prog.fileIdx, r.prog.nextBlock)
    && |block| == BlockLength(Entry(x, r.prog.fileIdx), r.prog.nextBlock)
  }

  lemma NextPieceFits(x: Setup, f: nat, b: nat, block: seq<byte>)
    requires S.ConfigOk(x.c) && f < Count(x) && PiecesFit(x, f, b) && b < Entry(x, f).blocks
    requires block == S.Piece(x.c, f, b) && |block| == BlockLength(Entry(x, f), b)
    ensures PiecesFit(x, f, b + 1)
  {
    hide S.Piece, BlockLength, Pos, Blocks, Held;
    BlockLengthIsPos(Entry(x, f), b);
  }

  /** What is known of the current sink before its next block is written. */
  lemma CurrentContent(x: Setup, r: State, block: seq<byte>)
    requires Inv(x, r) && r.outcome == Running && NextBlock(x, r, block)
    ensures S.ConfigOk(x.c) && r.prog.digest == Stored(r.out, r.prog.fileIdx)
    ensures SinkOk(x, r.prog, Stored(r.out, r.prog.fileIdx), r.prog.fileIdx)
    ensures SinksOk(x, r.prog, r.out) && Live(x, r.prog, r.out)
  {
    hide SentOk, LogOk, AsmOk, WellFormed, TermsOk, FromStream, PiecesFit, S.Piece, S.Pieces, BlockLength;
  }

  lemma AfterWriteSinks(x: Setup, r: State, block: seq<byte>)
    requires Inv(x, r) && r.outcome == Running && NextBlock(x, r, block)
    requires HasCurrent(r) && r.terms.manifest.value == x.c.manifest
    ensures var r1 := AfterWrite(r, block);
            SinksOk(x, r1.prog, r1.out) && Live(x, r1.prog, r1.out)
  {
    hide Inv, S.ConfigOk, S.Piece, S.Pieces, BlockLength, Blocks, PiecesFit, FromStream, WriteAt, Pos;
    var f, b := r.prog.fileIdx, r.prog.nextBlock;
    var content := Stored(r.out, f);
    CurrentContent(x, r, block);
    BlockAligned(x, f, b, block);
    AppendToStream(x, f, content, block);
    NextPieceFits(x, f, b, block);
    var r1 := AfterWrite(r, block);
    forall g | 0 <= g < Count(x) ensures SinkOk(x, r1.prog, Stored(r1.out, g), g) {
      assert SinkOk(x, r.prog, Stored(r.out, g), g);
    }
  }

  lemma AfterWriteHistory(x: Setup, r: State, block: seq<byte>)
    requires Inv(x, r) && r.outcome == Running && NextBlock(x, r, block)
    requires HasCurrent(r) && r.terms.manifest.value == x.c.manifest
    ensures var r1 := AfterWrite(r, block);
            SentOk(x, r1.prog, r1.out, r1.link.sent) && LogOk(x, r1.prog, r1.out.writes)
  {
    hide SafePath.Validate, SinksOk, Live, Resuming, SeedOk, Advert, Held, WriteAt, S.Piece, S.Pieces, Blocks,
      BlockLength;
    var r1 := AfterWrite(r, block);
    HistoryMonotone(x, r.prog, r.out, r1.prog, r1.out, r.link.sent, r.out.writes);
    var w := r1.out.writes[|r.out.writes|];
    assert WriteOk(x, r1.prog, w);
    forall i | 0 <= i < |r.out.writes| ensures Precedes(r.out.writes[i], w) {
      assert WriteOk(x, r.prog, r.out.writes[i]);
    }
  }

  lemma AfterWriteSound(x: Setup, r: State, block: seq<byte>)
    requires Inv(x, r) && r.outcome == Running && NextBlock(x, r, block)
    requires HasCurrent(r) && r.terms.manifest.value == x.c.manifest
    ensures var r1 := AfterWrite(r, block);
            Base(x, r1) && Live(x, r1.prog, r1.out)
  {
    AfterWriteSinks(x, r, block);
    AfterWriteHistory(x, r, block);
    hide SinksOk, Live, SentOk, LogOk, AsmOk, SeedOk, AllShaped, NextBlock, WriteBlock;
  }

  lemma CommitSound(x: Setup, r: State, block: seq<byte>, fault: Fault)
    requires Inv(x, r) && r.outcome == Running && NextBlock(x, r, block)
    requires HasCurrent(r) && r.terms.manifest.value == x.c.manifest
    ensures StepOk(x, CommitBlock(r, block, fault))
  {
    var r1 := AfterWrite(r, block);
    AfterWriteSound(x, r, block);
    WriteFaultSound(x, r, block);
    assert Settled(x, r.terms, r.prog);
    if fault != SendFault && !FaultAt(fault, AtWrite) {
      AfterAckSound(x, r1, fault) by { hide Base, Inv, Live; }
    }
    hide Base, Inv, Live, AfterAck, WriteBlock;
  }

  lemma WriteFaultSound(x: Setup, r: State, block: seq<byte>)
    requires Inv(x, r) && r.prog.fileOpen
    ensures Base(x, r.(prog := r.prog.(digest := r.prog.digest + block)))
  {
    hide SetupOk, AsmOk, SeedOk, AllShaped, FromStream, TermsOk, Live;
    assert S.ConfigOk(x.c) by { SetupConfig(x); }
    var r1 := r.(prog := r.prog.(digest := r.prog.digest + block));
    forall g | 0 <= g < Count(x) ensures SinkOk(x, r1.prog, Stored(r1.out, g), g) {
      assert SinkOk(x, r.prog, Stored(r.out, g), g);
    }
    HistoryMonotone(x, r.prog, r.out, r1.prog, r1.out, r.link.sent, r.out.writes);
  }

  lemma SetupConfig(x: Setup)
    requires SetupOk(x)
    ensures S.ConfigOk(x.c)
  {}

  lemma AfterAckSound(x: Setup, r: State, fault: Fault)
    requires Base(x, r) && Live(x, r.prog, r.out) && r.outcome == Running
    requires HasCurrent(r) && r.terms.manifest.value == x.c.manifest && r.prog.fileOpen
    requires r.prog.nextBlock <= Current(r).blocks && Held(x, r.prog.fileIdx) <= r.prog.nextBlock
    requires r.terms.active == (if Resuming(x) then x.host else None)
    requires x.c.manifest.transferId != [] ==> r.terms.advertised.Some?
    ensures StepOk(x, AfterAck(r, fault))
  {
    if r.prog.nextBlock == Current(r).blocks {
      FinishFileSound(x, r, fault);
      hide Base, Live;
      if FinishFile(r, fault).Ok? {
        OpenNextFileSound(x, FinishFile(r, fault).st, fault);
      }
    } else {
      assert Inv(x, r);
      BaseAsm(x, r);
      var r1 := r.(intake := r.intake.(seenAhead := r.intake.seenAhead - {r.prog.nextBlock}));
      hide Base, Inv, Live, AsmOk;
      FrameKeepsBase(x, r, r1);
      RequestMissingSound(x, r1, fault);
    }
  }

  lemma VerifiedFacts(x: Setup, r: State)
    requires Inv(x, r) && r.outcome == Running && r.terms.manifest.Some?
    ensures r.terms.manifest.value == x.c.manifest && Settled(x, r.terms, r.prog) && Sane(r)
    ensures r.prog.fileOpen ==> HasCurrent(r) && 0 <= r.prog.nextBlock
  {
    hide SetupOk, SentOk, LogOk, AsmOk, Live, SinksOk, SeedOk;
  }

  lemma OnVerifiedSound(x: Setup, r: State, file: int, block: int, data: seq<byte>, fault: Fault)
    requires Inv(x, r) && r.outcome == Running && r.terms.manifest.Some?
    requires S.ValidFile(x.c, file) && 0 <= block < S.Pieces(x.c, file) && block < Entry(x, file).blocks
    requires data == S.Piece(x.c, file, block) && |data| == BlockLength(Entry(x, file), block)
    ensures StepOk(x, OnVerified(r, file, block, data, fault))
  {
    hide Inv, Base, AsmOk, S.Piece, S.Pieces, BlockLength, CommitBlock, RequestMissing;
    VerifiedFacts(x, r);
    InvBase(x, r);
    BaseAsm(x, r);
    if file < r.prog.fileIdx || (file == r.prog.fileIdx && r.prog.fileOpen && block < r.prog.nextBlock) {
      AckSound(x, r, file, block, fault);
    } else if r.prog.fileOpen && file == r.prog.fileIdx {
      if block > r.prog.nextBlock {
        var r1 := r.(intake := SeeAhead(r.intake, block));
        FrameKeepsBase(x, r, r1);
        RequestMissingSound(x, r1, fault);
      } else {
        CommitSound(x, r, data, fault);
      }
    }
  }

  lemma OnBlockHashSound(x: Setup, r: State, file: int, block: int, sha: Sha, fault: Fault)
    requires Inv(x, r) && r.outcome == Running && Genuine(x.c, BlockHash(file, block, sha))
    ensures StepOk(x, OnBlockHash(r, file, block, sha, fault))
  {
    assert AsmOk(x, r.intake.asm) && AsmOk(x, None);
    InvBase(x, r);
    if r.intake.asm.Some? && r.terms.manifest.Some? {
      var a := r.intake.asm.value;
      var r1 := SetAsm(r, None);
      FrameKeepsBase(x, r, r1) by { hide Inv, Base, AsmOk; }
      if file == a.file && block == a.block && |a.got| == a.size && Sha(a.got) == sha {
        OnVerifiedSound(x, r1, file, block, a.got, fault) by { hide Inv, Base; }
      }
    }
    hide Inv, Base, OnVerified;
  }

  lemma CloseKeepsBase(x: Setup, r: State)
    requires Base(x, r) && r.terms.manifest.Some? && r.prog.fileIdx == Count(x)
    ensures Base(x, r.(out := r.out.(closed := true)))
  {
    var r1 := r.(out := r.out.(closed := true));
    hide SetupOk, AsmOk, SeedOk, AllShaped, SinkOk, TermsOk, Live;
    SetupConfig(x);
    HistoryMonotone(x, r.prog, r.out, r1.prog, r1.out, r.link.sent, r.out.writes);
    forall g | 0 <= g < Count(x) ensures SinkOk(x, r1.prog, Stored(r1.out, g), g) {
      assert SinkOk(x, r.prog, Stored(r.out, g), g);
    }
  }

  lemma BaseManifest(x: Setup, r: State)
    requires Base(x, r) && r.terms.manifest.Some?
    ensures r.terms.manifest.value == x.c.manifest
  {}

  lemma OnCompleteSound(x: Setup, r: State, digest: SetDigest, fault: Fault)
    requires Inv(x, r) && r.outcome == Running
    ensures StepOk(x, OnComplete(r, digest, fault))
  {
    hide Inv, Base, AsmOk, RequestMissing, CompletionDigest, TermsOk;
    InvBase(x, r);
    BaseAsm(x, r);
    if r.terms.manifest.Some? { BaseManifest(x, r); }
    RequestMissingSound(x, r, fault);
    if r.terms.manifest.Some? && r.prog.fileIdx == Count(x) {
      CloseKeepsBase(x, r);
      var r1 := r.(out := r.out.(closed := true));
      PushKeepsBase(x, r1, Push(r1, Done), Done);
      FrameKeepsBase(x, Push(r1, Done), Push(r1, Done).(outcome := Succeeded));
    }
  }

  lemma BaseSane(x: Setup, r: State)
    requires Base(x, r)
    ensures Sane(r)
  {}

  lemma DispatchSound(x: Setup, r: State, m: Msg, fault: Fault)
    requires Inv(x, r) && r.outcome == Running && Genuine(x.c, m)
    ensures StepOk(x, Dispatch(r, m, fault))
  {
    hide Inv, Base, AsmOk, ApplyManifest, OnBlockData, OnBlockHash, OnComplete, S.Piece, S.Pieces, CompletionDigest;
    InvBase(x, r);
    BaseAsm(x, r);
    BaseSane(x, r);
    match m {
      case ManifestMsg(_) => ApplyManifestSound(x, r, fault);
      case BlockData(file, block, off, payload) => OnBlockDataSound(x, r, file, block, off, payload);
      case BlockHash(file, block, sha) => OnBlockHashSound(x, r, file, block, sha, fault);
      case Complete(digest) => OnCompleteSound(x, r, digest, fault);
      case ControlMsg(op) => FrameKeepsBase(x, r, OnControl(r, op));
      case Fail(reason) => FrameKeepsBase(x, r, AbortWith(r, reason, false));
      case _ =>
    }
  }

  /** One authentic or forged frame, with any fault outside the engine. */
  lemma HandleSound(x: Setup, r: State, frame: Frame, fault: Fault)
    requires Inv(x, r) && (frame.Sealed? ==> Genuine(x.c, frame.msg))
    ensures Inv(x, Handle(r, frame, fault))
  {
    InvBase(x, r);
    BaseAsm(x, r);
    assert r.outcome == Succeeded ==> r.out.closed;
    hide Inv, Base, AsmOk, Dispatch, Genuine;
    if frame.Sealed? && r.link.recvCounter <= frame.counter {
      var r1 := Accept(r, frame.counter);
      FrameKeepsBase(x, r, r1);
      if r.outcome == Running {
        DispatchSound(x, r1, frame.msg, fault);
      } else if r.outcome == Succeeded {
        PushKeepsBase(x, r1, Push(r1, Done), Done);
        FrameKeepsBase(x, Push(r1, Done), Push(r1, Done));
      }
    }
    SettleKeepsInv(x, Process(r, frame, fault));
  }
}
