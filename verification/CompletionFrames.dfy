/** Frames arriving at the receiver keep a scene sound. */
module CompletionFrames {
  import opened Wire
  import opened Geometry
  import opened ReceiverSafety
  import opened Cutover
  import opened Completion
  import S = SenderModel
  import W = SenderWindow
  import R = ReceiverModel
  import F = ReceiverEffects
  import SafePath

  /** The first frame on its way arrives under counter `k`. */
  function AfterFrame(v: Scene, k: nat): Scene
    requires v.p != [] && R.Sane(v.r)
  {
    var t := R.Handle(v.r, Sealed(k, v.p[0]), R.NoFault);
    Scene(v.s, t, v.p[1..], v.q + Added(v.r, t))
  }

  function Added(r: R.State, t: R.State): seq<Msg> {
    if |r.link.sent| <= |t.link.sent| then t.link.sent[|r.link.sent|..] else []
  }

  /** What is known of the receiver and of how the window relates to it. */
  predicate ReceiverKnown(x: Setup, v: Scene) {
    && R.Sane(v.r) && SafePath.Validate(x.c.manifest) == Some(x.c.manifest)
    && (v.r.terms.manifest == None ==> v.r.prog == R.Progress(0, false, 0, [], [], 0) && v.r.intake.asm == None)
    && (v.r.intake.asm.Some? ==> !v.r.intake.awaitingRestart)
    && (v.r.outcome == Running && v.r.terms.manifest.Some? ==>
          && v.r.terms.manifest == Some(x.c.manifest) && F.Needy(v.r)
          && (x.c.manifest.transferId != [] ==> v.r.terms.advertised.Some?))
  }

  /** The receiver is in the sender's file. */
  predicate SameFile(v: Scene) {
    v.r.outcome == Running && v.r.prog.fileOpen && W.InFile(v.s.pc) && v.r.prog.fileIdx == v.s.tally.active
  }

  /** From the next block needed to the read position every block is in flight, and the window is
      no longer than the receiver's notes. */
  predicate Tight(x: Setup, v: Scene) {
    && |v.s.win.inflight| <= DEFAULT_INFLIGHT_BLOCKS
    && (SameFile(v) ==>
          && v.s.pc.next <= F.CurrentBlocks(v.r) && v.r.prog.fileIdx < Count(x)
          && F.CurrentBlocks(v.r) == Entry(x, v.r.prog.fileIdx).blocks && 0 <= v.r.prog.nextBlock
          && (forall b :: v.r.prog.nextBlock <= b < v.s.pc.next ==> b in v.s.win.inflight)
          && (forall b :: b in v.s.win.inflight ==> 0 <= b < v.s.pc.next))
  }

  /** A frame as the sender may have sealed it. */
  predicate HeadKnown(x: Setup, v: Scene)
    requires v.p != []
  {
    && (v.r.outcome == Running ==> Next(x.c, ReceiverSpot(v.r), v.p[0]) != Bad)
    && match v.p[0]
       case ManifestMsg(m) => m == x.c.manifest
       case BlockHash(f, b, _) =>
         v.r.outcome == Running && v.r.prog.fileOpen && f == v.r.prog.fileIdx && v.r.prog.nextBlock <= b ==>
           W.InFile(v.s.pc) && f == v.s.tally.active
       case Complete(_) => v.s.completeSent && !v.r.prog.fileOpen
       case _ => true
  }

  /** The frame was taken by a running receiver without failing it. */
  lemma Taken(v: Scene, k: nat)
    requires v.p != [] && R.Sane(v.r) && v.r.outcome == Running && v.r.link.recvCounter <= k
    requires !AfterFrame(v, k).r.outcome.Failed?
    requires (v.p[0].BlockHash? || v.p[0].BlockData? || v.p[0].ManifestMsg? || v.p[0].Complete?)
    ensures var s := R.Dispatch(R.Accept(v.r, k), v.p[0], R.NoFault); s.Ok? && AfterFrame(v, k).r == s.st
  {
    hide R.ApplyManifest, R.OnBlockData, R.OnBlockHash, R.OnComplete, R.AllShaped;
    DispatchRuns(R.Accept(v.r, k), v.p[0]);
  }

  /** A handler that ends in an error leaves the verdict to its caller. */
  lemma DispatchRuns(r: R.State, m: Msg)
    requires R.Sane(r) && r.outcome == Running && (m.BlockHash? || m.BlockData? || m.ManifestMsg? || m.Complete?)
    ensures var s := R.Dispatch(r, m, R.NoFault); s.Err? ==> s.st.outcome == Running
  {
    hide R.AllShaped, SafePath.Validate, CompletionDigest, R.SeedOk, R.AfterAck, R.OpenNextFile;
    if m.BlockHash? { HashRuns(r, m); }
  }

  lemma HashRuns(r: R.State, m: Msg)
    requires R.Sane(r) && r.outcome == Running && m.BlockHash?
    ensures R.OnBlockHash(r, m.hashFile, m.hashBlock, m.sha, R.NoFault).st.outcome == Running
  {
    hide R.AllShaped, R.OpenNextFile;
  }

  // ---------------------------------------------------------------- the pipe moves on

  /** One frame has left the pipe and the receiver has followed it. */
  predicate Moved(c: S.Config, v: Scene, w: Scene) {
    && v.p != [] && w.s == v.s && w.p == v.p[1..] && v.q <= w.q
    && ReceiverSpot(w.r) == Next(c, ReceiverSpot(v.r), v.p[0])
  }

  /** What an answer or a note has to make up for. */
  predicate Answered1(v: Scene, w: Scene, b: int)
    requires v.p != []
  {
    var f := v.s.tally.active;
    || Ack(f, b) in w.q || Nack(f, b) in w.q || Noted(w.r, f, b)
  }

  lemma CoveredOn(c: S.Config, v: Scene, w: Scene, b: int)
    requires Moved(c, v, w) && Covered(c, v, b)
    requires Noted(v.r, v.s.tally.active, b) ==> Answered1(v, w, b)
    requires v.p[0].BlockHash? && v.p[0].hashFile == v.s.tally.active && v.p[0].hashBlock == b && ReceiverSpot(v.r) != Lost ==>
               Answered1(v, w, b)
    ensures Covered(c, w, b)
  {
    hide Noted, Next;
    assert v.p == [v.p[0]] + v.p[1..];
    TrackHead(c, ReceiverSpot(v.r), v.p[0], v.p[1..]);
  }

  lemma PrefixIn(q: seq<Msg>, more: seq<Msg>)
    requires q <= more
    ensures forall m :: m in q ==> m in more
  {
    forall m | m in q ensures m in more {
      var i :| 0 <= i < |q| && q[i] == m;
      assert more[i] == m;
    }
  }

  lemma RestFirst(p: seq<Msg>)
    requires p != []
    ensures HasManifest(p) ==> p[0].ManifestMsg? || HasManifest(p[1..])
    ensures HasComplete(p) ==> p[0].Complete? || HasComplete(p[1..])
  {
    if HasManifest(p) && !p[0].ManifestMsg? { var i :| 0 <= i < |p| && p[i].ManifestMsg?; assert p[1..][i - 1].ManifestMsg?; }
    if HasComplete(p) && !p[0].Complete? { var i :| 0 <= i < |p| && p[i].Complete?; assert p[1..][i - 1].Complete?; }
  }

  /** A frame that makes the receiver say `msgs` and changes neither its progress nor its notes. */
  lemma QuietFrame(x: Setup, v: Scene, w: Scene, msgs: seq<Msg>)
    requires Good(x, v) && Moved(x.c, v, w) && w.q == v.q + msgs && |msgs| <= 1 && v.r.outcome == Running
    requires w.r.prog == v.r.prog && w.r.outcome == v.r.outcome && w.r.out == v.r.out
    requires w.r.terms.manifest.Some?
    requires w.r.intake.seenAhead == v.r.intake.seenAhead && w.r.intake.nackOutstanding == v.r.intake.nackOutstanding
    requires msgs != [] ==> msgs[0].Ack? || msgs[0].ResumeMsg?
    requires v.p[0].ManifestMsg? && x.c.manifest.transferId != [] ==> msgs != [] && msgs[0].ResumeMsg?
    requires v.p[0].BlockHash? && ReceiverSpot(v.r) != Lost ==> Ack(v.p[0].hashFile, v.p[0].hashBlock) in msgs
    requires !v.p[0].Complete?
    ensures Good(x, w)
  {
    hide InPipe, Track, Next, Count1, ReceiverSpot, IsCommitted, PlanComing, DoneComing;
    PrefixIn(v.q, w.q);
    if msgs != [] { assert w.q[|v.q|] == msgs[0]; }
    StillComing(x.c, v, w);
    forall b | b in w.s.win.inflight && W.InFile(w.s.pc)
      ensures Covered(x.c, w, b) && Spent(x, w, b) <= x.c.maxRetries
    {
      assert Covered(x.c, v, b) && Spent(x, v, b) <= x.c.maxRetries;
      CoveredOn(x.c, v, w, b);
      CountAppend(v.q, msgs, Nack(v.s.tally.active, b));
      CountAbsent(msgs, Nack(v.s.tally.active, b));
    }
  }

  /** The plan and Done are still coming. */
  lemma StillComing(c: S.Config, v: Scene, w: Scene)
    requires PlanComing(c, v) && DoneComing(v) && v.p != [] && w.s == v.s && w.p == v.p[1..] && v.q <= w.q
    requires v.p[0].ManifestMsg? && c.manifest.transferId != [] ==> exists i :: |v.q| <= i < |w.q| && w.q[i].ResumeMsg?
    requires v.p[0].Complete? ==> exists i :: |v.q| <= i < |w.q| && w.q[i].Done?
    ensures PlanComing(c, w) && DoneComing(w)
  {
    RestFirst(v.p);
    Prefixed(v.q, w.q);
  }

  // ---------------------------------------------------------------- hashes

  /** There is room to note one more early block. */
  lemma RoomToNote(v: Scene, b: int)
    requires NotedOk(v) && v.r.outcome == Running && |v.s.win.inflight| <= DEFAULT_INFLIGHT_BLOCKS
    requires v.r.prog.nextBlock in v.s.win.inflight && b in v.s.win.inflight && v.r.prog.nextBlock < b
    ensures R.SeeAhead(v.r.intake, b).seenAhead == v.r.intake.seenAhead + {b}
  {
    var seen, keys := v.r.intake.seenAhead, v.s.win.inflight.Keys;
    if b in seen {
      assert seen + {b} == seen;
    } else {
      forall k | k in seen ensures k in keys - {v.r.prog.nextBlock, b} {
        assert k in v.s.win.inflight && v.r.prog.nextBlock < k;
      }
      Subset(seen, keys - {v.r.prog.nextBlock, b});
      assert |keys - {v.r.prog.nextBlock, b}| == |keys| - 2;
    }
  }

  lemma {:induction false} Subset(a: set<int>, b: set<int>)
    requires a <= b
    ensures |a| <= |b|
  {
    assert b == a + (b - a);
    assert |b| == |a| + |b - a|;
  }

  /** An early block is noted, and the next one asked for if it has not been. */
  lemma EarlyFrame(x: Setup, v: Scene, w: Scene, f: int, b: int)
    requires Good(x, v) && Tight(x, v) && SameFile(v) && Moved(x.c, v, w) && v.p[0].BlockHash?
    requires f == v.r.prog.fileIdx && v.p[0].hashFile == f && v.p[0].hashBlock == b && v.r.prog.nextBlock < b
    requires w.r.terms.manifest.Some? && w.r.prog == v.r.prog && w.r.outcome == v.r.outcome && w.r.out == v.r.out
    requires w.q == v.q + (if v.r.intake.nackOutstanding == v.r.prog.nextBlock then [] else [Nack(f, v.r.prog.nextBlock)])
    requires w.r.intake.seenAhead == R.SeeAhead(v.r.intake, b).seenAhead
    requires w.r.intake.nackOutstanding == v.r.prog.nextBlock
    ensures Good(x, w)
  {
    var n := v.r.prog.nextBlock;
    assert b < v.s.pc.next;
    assert n in v.s.win.inflight && b in v.s.win.inflight;
    RoomToNote(v, b);
    hide InPipe, Track, Next, Count1, ReceiverSpot, PlanComing, DoneComing;
    PrefixIn(v.q, w.q);
    StillComing(x.c, v, w);
    var msgs := if v.r.intake.nackOutstanding == n then [] else [Nack(f, n)];
    forall k | k in w.s.win.inflight && W.InFile(w.s.pc)
      ensures Covered(x.c, w, k) && Spent(x, w, k) <= x.c.maxRetries
    {
      assert Covered(x.c, v, k) && Spent(x, v, k) <= x.c.maxRetries;
      CoveredOn(x.c, v, w, k);
      CountAppend(v.q, msgs, Nack(v.s.tally.active, k));
      CountOne(msgs, Nack(v.s.tally.active, k));
    }
  }

  lemma CountOne(msgs: seq<Msg>, m: Msg)
    requires |msgs| <= 1
    ensures Count1(msgs, m) == One(msgs != [] && msgs[0] == m)
  {
    if msgs != [] { assert Count1(msgs[1..], m) == 0; }
  }

  /** The next block was committed and another one of the file is needed. */
  lemma CommitFrame(x: Setup, v: Scene, w: Scene, f: int)
    requires Good(x, v) && Tight(x, v) && SameFile(v) && Moved(x.c, v, w) && v.p[0].BlockHash?
    requires f == v.r.prog.fileIdx && v.p[0].hashFile == f && v.p[0].hashBlock == v.r.prog.nextBlock
    requires w.r.terms.manifest.Some? && w.r.outcome == v.r.outcome && !w.r.out.closed
    requires w.r.prog.fileIdx == f && w.r.prog.fileOpen && w.r.prog.nextBlock == v.r.prog.nextBlock + 1
    requires var next := v.r.prog.nextBlock + 1;
             && w.r.intake.seenAhead == v.r.intake.seenAhead - {next}
             && w.r.intake.nackOutstanding == (if next in v.r.intake.seenAhead then next else -1)
             && w.q == v.q + [Ack(f, next - 1)] + (if next in v.r.intake.seenAhead then [Nack(f, next)] else [])
    requires v.r.prog.nextBlock < F.CurrentBlocks(v.r)
    ensures Good(x, w)
  {
    var n := v.r.prog.nextBlock;
    hide InPipe, Track, Next, Count1, ReceiverSpot, PlanComing, DoneComing;
    var more := if n + 1 in v.r.intake.seenAhead then [Nack(f, n + 1)] else [];
    PrefixIn(v.q, v.q + [Ack(f, n)]);
    PrefixIn(v.q + [Ack(f, n)], w.q);
    assert (v.q + [Ack(f, n)])[|v.q|] == Ack(f, n);
    if more != [] { assert w.q[|v.q| + 1] == Nack(f, n + 1); }
    StillComing(x.c, v, w);
    forall k | k in w.s.win.inflight && W.InFile(w.s.pc)
      ensures Covered(x.c, w, k) && Spent(x, w, k) <= x.c.maxRetries
    {
      assert Covered(x.c, v, k) && Spent(x, v, k) <= x.c.maxRetries;
      CoveredOn(x.c, v, w, k);
      var nack := Nack(v.s.tally.active, k);
      CountAppend(v.q, [Ack(f, n)], nack);
      CountAppend(v.q + [Ack(f, n)], more, nack);
      CountOne([Ack(f, n)], nack);
      CountOne(more, nack);
    }
  }

  /** The last block of the file was committed: nothing was noted beyond it. */
  lemma FinishFrame(x: Setup, v: Scene, w: Scene, f: int)
    requires Good(x, v) && Tight(x, v) && SameFile(v) && Moved(x.c, v, w) && v.p[0].BlockHash?
    requires f == v.r.prog.fileIdx && v.p[0].hashFile == f && v.p[0].hashBlock == v.r.prog.nextBlock
    requires w.r.terms.manifest.Some? && w.r.outcome == v.r.outcome && !w.r.out.closed
    requires w.r.prog.fileIdx > f && v.r.prog.nextBlock + 1 >= F.CurrentBlocks(v.r)
    requires w.r.intake.seenAhead == {} || w.r.intake.seenAhead == v.r.intake.seenAhead
    requires w.q == v.q + [Ack(f, v.r.prog.nextBlock)]
    ensures Good(x, w)
  {
    var n := v.r.prog.nextBlock;
    assert forall k :: k in v.r.intake.seenAhead ==> k in v.s.win.inflight && n < k < v.s.pc.next;
    assert v.r.intake.seenAhead == {};
    hide InPipe, Track, Next, Count1, ReceiverSpot, PlanComing, DoneComing;
    PrefixIn(v.q, w.q);
    assert w.q[|v.q|] == Ack(f, n);
    StillComing(x.c, v, w);
    forall k | k in w.s.win.inflight && W.InFile(w.s.pc)
      ensures Covered(x.c, w, k) && Spent(x, w, k) <= x.c.maxRetries
    {
      assert Covered(x.c, v, k) && Spent(x, v, k) <= x.c.maxRetries;
      CoveredOn(x.c, v, w, k);
      CountAppend(v.q, [Ack(f, n)], Nack(v.s.tally.active, k));
      CountOne([Ack(f, n)], Nack(v.s.tally.active, k));
      assert IsCommitted(x, w.r.prog, f, k);
    }
  }

  /** The manifest arrives for the first time. */
  lemma FirstFrame(x: Setup, v: Scene, w: Scene, msgs: seq<Msg>)
    requires Good(x, v) && Moved(x.c, v, w) && v.p[0].ManifestMsg? && v.r.outcome == w.r.outcome == Running
    requires v.r.terms.manifest == None && w.r.terms.manifest.Some? && !w.r.out.closed
    requires v.r.prog.fileIdx == 0 && !v.r.prog.fileOpen && w.q == v.q + msgs && |msgs| <= 1
    requires msgs != [] ==> msgs[0].ResumeMsg?
    requires x.c.manifest.transferId != [] ==> msgs != []
    requires w.r.intake.seenAhead == {} || w.r.intake.seenAhead == v.r.intake.seenAhead
    ensures Good(x, w)
  {
    assert forall k :: k in v.r.intake.seenAhead ==> v.r.prog.fileOpen;
    assert v.r.intake.seenAhead == {};
    hide InPipe, Track, Next, Count1, ReceiverSpot, PlanComing, DoneComing;
    PrefixIn(v.q, w.q);
    if msgs != [] { assert w.q[|v.q|] == msgs[0]; }
    StillComing(x.c, v, w);
    forall k | k in w.s.win.inflight && W.InFile(w.s.pc)
      ensures Covered(x.c, w, k) && Spent(x, w, k) <= x.c.maxRetries
    {
      assert Covered(x.c, v, k) && Spent(x, v, k) <= x.c.maxRetries;
      CoveredOn(x.c, v, w, k);
      CountAppend(v.q, msgs, Nack(v.s.tally.active, k));
      CountOne(msgs, Nack(v.s.tally.active, k));
      assert MayAsk(x, v.r, v.s.tally.active, k) == 1;
    }
  }

  /** Complete has been answered, or the receiver had settled before. */
  lemma EndFrame(x: Setup, v: Scene, w: Scene)
    requires Good(x, v) && v.p != [] && w.s == v.s && w.p == v.p[1..] && v.q <= w.q && v.s.completeSent
    requires w.r.outcome == Succeeded && w.r.out.closed
    requires forall i :: |v.q| <= i < |w.q| ==> w.q[i].Done?
    requires v.p[0].Complete? ==> |v.q| < |w.q|
    ensures Good(x, w)
  {
    hide PlanComing, DoneComing;
    PlanQuiet(x.c, v, w);
    if v.p[0].Complete? { assert w.q[|v.q|].Done?; }
    DoneStays(v, w);
  }

  lemma PlanQuiet(c: S.Config, v: Scene, w: Scene)
    requires Alive(v) && v.s.completeSent && w.s == v.s
    ensures PlanComing(c, w)
  {}

  lemma DoneStays(v: Scene, w: Scene)
    requires DoneComing(v) && v.p != [] && w.s == v.s && w.p == v.p[1..] && v.q <= w.q
    requires v.p[0].Complete? ==> |v.q| < |w.q| && w.q[|v.q|].Done?
    ensures DoneComing(w)
  {
    RestFirst(v.p);
    Prefixed(v.q, w.q);
  }

  // ---------------------------------------------------------------- every frame

  /** A running receiver takes the first frame on its way. */
  predicate Arrives(x: Setup, v: Scene, k: nat) {
    && Good(x, v) && ReceiverKnown(x, v) && Tight(x, v) && v.p != [] && HeadKnown(x, v)
    && v.r.outcome == Running && v.r.link.recvCounter <= k && !AfterFrame(v, k).r.outcome.Failed?
  }

  lemma ArrivedFacts(x: Setup, v: Scene, k: nat)
    requires Arrives(x, v, k)
    ensures var s := R.Dispatch(R.Accept(v.r, k), v.p[0], R.NoFault);
            s.Ok? && AfterFrame(v, k) == Scene(v.s, s.st, v.p[1..], v.q + Added(v.r, s.st))
    ensures Forth(v.p[0]) && !v.r.out.closed
    ensures v.r.terms.manifest == None ==> v.p[0].ManifestMsg?
  {
    assert Forth(v.p[0]);
    Taken(v, k);
    hide R.Handle, R.Dispatch, Track, InPipe, AllCovered, BudgetOk, BoundOk, NotedOk, PlanComing, DoneComing;
  }

  lemma AddedIs(r: R.State, t: R.State, msgs: seq<Msg>)
    requires t.link.sent == r.link.sent + msgs
    ensures Added(r, t) == msgs
  {}

  lemma ManifestArrives(x: Setup, v: Scene, k: nat)
    requires Arrives(x, v, k) && v.p[0].ManifestMsg?
    ensures Good(x, AfterFrame(v, k))
  {
    ArrivedFacts(x, v, k);
    hide Good, Tight, SafePath.Validate, R.ApplyManifest, AfterFrame, R.AllShaped;
    var a, w, m := R.Accept(v.r, k), AfterFrame(v, k), x.c.manifest;
    NotClosed(x, v, k, w);
    if v.r.terms.manifest == None {
      F.FirstManifestEffect(a, m);
      if m.transferId == [] {
        AddedIs(v.r, w.r, []);
        FirstFrame(x, v, w, []);
      } else {
        var rs :| w.r.link.sent == a.link.sent + [ResumeMsg(rs)];
        AddedIs(v.r, w.r, [ResumeMsg(rs)]);
        FirstFrame(x, v, w, [ResumeMsg(rs)]);
      }
    } else {
      F.ManifestAgain(a, m);
      var msgs := if m.transferId == [] then [] else [ResumeMsg(a.terms.advertised.value)];
      AddedIs(v.r, w.r, msgs);
      QuietFrame(x, v, w, msgs);
    }
  }

  /** Only Complete closes the destination. */
  lemma NotClosed(x: Setup, v: Scene, k: nat, w: Scene)
    requires Arrives(x, v, k) && !v.p[0].Complete? && w == AfterFrame(v, k)
    ensures !w.r.out.closed
  {
    ArrivedFacts(x, v, k);
    hide Good, Tight, ReceiverKnown, SafePath.Validate, R.AllShaped, R.Handle, AfterFrame;
    StaysOpen(R.Accept(v.r, k), v.p[0]);
  }

  lemma StaysOpen(r: R.State, m: Msg)
    requires R.Sane(r) && !r.out.closed && (m.ManifestMsg? || m.BlockData? || m.BlockHash?)
    ensures !R.Dispatch(r, m, R.NoFault).st.out.closed
  {
    hide SafePath.Validate, R.AllShaped;
  }

  lemma DataArrives(x: Setup, v: Scene, k: nat)
    requires Arrives(x, v, k) && v.p[0].BlockData?
    ensures Good(x, AfterFrame(v, k))
  {
    ArrivedFacts(x, v, k);
    hide Good, Tight, SafePath.Validate, R.OnBlockData, AfterFrame, R.AllShaped;
    var a, w, m := R.Accept(v.r, k), AfterFrame(v, k), v.p[0];
    F.DataEffect(a, m.fileIdx, m.blockIdx, m.frameOff, m.payload);
    AddedIs(v.r, w.r, []);
    DataFollows(x.c, v.r, w.r, m);
    QuietFrame(x, v, w, []);
  }

  /** The receiver's place after a fragment. */
  lemma DataFollows(c: S.Config, r: R.State, t: R.State, m: Msg)
    requires m.BlockData? && r.terms.manifest.Some? && (r.intake.asm.Some? ==> !r.intake.awaitingRestart)
    requires t.terms == r.terms && (r.intake.awaitingRestart && m.frameOff != 0 ==> t.intake == r.intake)
    requires !(r.intake.awaitingRestart && m.frameOff != 0) ==>
               && t.intake.asm.Some? && !t.intake.awaitingRestart && t.intake.asm.value.file == m.fileIdx
               && t.intake.asm.value.block == m.blockIdx && |t.intake.asm.value.got| == m.frameOff + |m.payload|
               && (m.frameOff == 0 ==> r.intake.asm == None)
               && (m.frameOff != 0 ==> ReceiverSpot(r) == Mid(m.fileIdx, m.blockIdx, m.frameOff))
    ensures ReceiverSpot(t) == Next(c, ReceiverSpot(r), m)
  {}

  lemma HashArrives(x: Setup, v: Scene, k: nat)
    requires Arrives(x, v, k) && v.p[0].BlockHash?
    ensures Good(x, AfterFrame(v, k))
  {
    ArrivedFacts(x, v, k);
    hide Good, Tight, SafePath.Validate, R.OnBlockHash, AfterFrame, R.AllShaped, F.HashDone;
    var a, w, m := R.Accept(v.r, k), AfterFrame(v, k), v.p[0];
    if v.r.intake.asm == None {
      F.HashSkipped(a, m.hashFile, m.hashBlock, m.sha);
      AddedIs(v.r, w.r, []);
      QuietFrame(x, v, w, []);
    } else {
      F.HashEffect(a, m.hashFile, m.hashBlock, m.sha);
      HashTaken(x, v, k);
    }
  }

  /** A hash that completes the block in hand. */
  predicate Took(x: Setup, v: Scene, w: Scene, k: nat) {
    && v.p != [] && v.p[0].BlockHash? && v.r.terms.manifest.Some? && w.r.terms.manifest.Some?
    && F.HashDone(R.Accept(v.r, k), v.p[0].hashFile, v.p[0].hashBlock, w.r)
    && w.s == v.s && w.p == v.p[1..] && w.q == v.q + Added(v.r, w.r)
    && v.r.outcome == Running && !v.r.out.closed && !w.r.out.closed
    && Moved(x.c, v, w)
  }

  lemma HashTaken(x: Setup, v: Scene, k: nat)
    requires Arrives(x, v, k) && v.p[0].BlockHash? && v.r.intake.asm.Some? && v.r.terms.manifest.Some?
    requires F.HashDone(R.Accept(v.r, k), v.p[0].hashFile, v.p[0].hashBlock, AfterFrame(v, k).r)
    ensures Good(x, AfterFrame(v, k))
  {
    var w, m := AfterFrame(v, k), v.p[0];
    assert Took(x, v, w, k) by {
      hide Good, Tight, R.Dispatch, R.AllShaped, F.HashDone;
      ArrivedFacts(x, v, k);
      NotClosed(x, v, k, w);
      MovedHash(x, v, k);
      HashTerms(R.Accept(v.r, k), m.hashFile, m.hashBlock, w.r);
    }
    assert F.Repeated(v.r, m.hashFile, m.hashBlock) || SameFile(v) by { TakenInFile(x, v, k); }
    hide Good, Tight, Took, AfterFrame, SameFile, ReceiverKnown, HeadKnown;
    if F.Repeated(v.r, m.hashFile, m.hashBlock) {
      RepeatTaken(x, v, w, k);
    } else if m.hashBlock > v.r.prog.nextBlock {
      EarlyTaken(x, v, w, k);
    } else {
      NextTaken(x, v, w, k);
    }
  }

  lemma HashTerms(r: R.State, f: int, b: int, t: R.State)
    requires F.HashDone(r, f, b, t)
    ensures t.terms == r.terms
  {
    hide F.Committed1;
  }

  lemma RepeatTaken(x: Setup, v: Scene, w: Scene, k: nat)
    requires Took(x, v, w, k) && Good(x, v) && F.Repeated(v.r, v.p[0].hashFile, v.p[0].hashBlock)
    ensures Good(x, w)
  {
    hide Good, Moved;
    var ack := Ack(v.p[0].hashFile, v.p[0].hashBlock);
    AddedIs(v.r, w.r, [ack]);
    QuietFrame(x, v, w, [ack]);
  }

  lemma EarlyTaken(x: Setup, v: Scene, w: Scene, k: nat)
    requires Took(x, v, w, k) && Good(x, v) && Tight(x, v) && SameFile(v)
    requires !F.Repeated(v.r, v.p[0].hashFile, v.p[0].hashBlock) && v.p[0].hashBlock > v.r.prog.nextBlock
    ensures Good(x, w)
  {
    hide Good, Moved, Tight;
    var n := v.r.prog.nextBlock;
    AddedIs(v.r, w.r, if v.r.intake.nackOutstanding == n then [] else [Nack(v.p[0].hashFile, n)]);
    EarlyFrame(x, v, w, v.p[0].hashFile, v.p[0].hashBlock);
  }

  lemma NextTaken(x: Setup, v: Scene, w: Scene, k: nat)
    requires Took(x, v, w, k) && Good(x, v) && Tight(x, v) && SameFile(v) && F.Needy(v.r)
    requires !F.Repeated(v.r, v.p[0].hashFile, v.p[0].hashBlock) && v.p[0].hashBlock <= v.r.prog.nextBlock
    ensures Good(x, w)
  {
    hide Good, Moved, Tight;
    var f, n := v.p[0].hashFile, v.r.prog.nextBlock;
    if n + 1 < F.CurrentBlocks(v.r) {
      var more := if n + 1 in v.r.intake.seenAhead then [Nack(f, n + 1)] else [];
      assert v.r.link.sent + [Ack(f, n)] + more == v.r.link.sent + ([Ack(f, n)] + more);
      AddedIs(v.r, w.r, [Ack(f, n)] + more);
      assert w.q == v.q + [Ack(f, n)] + more;
      CommitFrame(x, v, w, f);
    } else {
      AddedIs(v.r, w.r, [Ack(f, n)]);
      FinishFrame(x, v, w, f);
    }
  }

  /** A block that is not a repetition is of the sender's file. */
  lemma TakenInFile(x: Setup, v: Scene, k: nat)
    requires Arrives(x, v, k) && v.p[0].BlockHash?
    requires F.HashDone(R.Accept(v.r, k), v.p[0].hashFile, v.p[0].hashBlock, AfterFrame(v, k).r)
    ensures SameFile(v) || F.Repeated(v.r, v.p[0].hashFile, v.p[0].hashBlock)
  {
    hide Good, Tight, SafePath.Validate, R.Dispatch, AfterFrame, R.AllShaped, F.Committed1;
  }

  lemma MovedHash(x: Setup, v: Scene, k: nat)
    requires Arrives(x, v, k) && v.p[0].BlockHash? && v.r.intake.asm.Some? && v.r.terms.manifest.Some?
    requires F.HashDone(R.Accept(v.r, k), v.p[0].hashFile, v.p[0].hashBlock, AfterFrame(v, k).r)
    ensures Moved(x.c, v, AfterFrame(v, k))
  {
    ArrivedFacts(x, v, k);
    hide Good, Tight, SafePath.Validate, R.Dispatch, AfterFrame, R.AllShaped, F.Committed1;
  }

  lemma CompleteArrives(x: Setup, v: Scene, k: nat)
    requires Arrives(x, v, k) && v.p[0].Complete?
    ensures Good(x, AfterFrame(v, k))
  {
    ArrivedFacts(x, v, k);
    var w := AfterFrame(v, k);
    assert w.r.outcome == Succeeded && w.r.out.closed && w.r.link.sent == v.r.link.sent + [Done] by {
      hide Good, Tight, SafePath.Validate, R.AllShaped, CompletionDigest;
    }
    AddedIs(v.r, w.r, [Done]);
    hide Arrives, AfterFrame, Good;
    EndFrame(x, v, w);
  }

  /** A settled receiver answers Complete and nothing else. */
  lemma SettledArrives(x: Setup, v: Scene, k: nat)
    requires Good(x, v) && v.p != [] && R.Sane(v.r) && v.r.outcome == Succeeded && v.r.link.recvCounter <= k
    ensures Good(x, AfterFrame(v, k))
  {
    var w := AfterFrame(v, k);
    var msgs := if v.p[0].Complete? then [Done] else [];
    assert w.r.outcome == Succeeded && w.r.out.closed && w.r.link.sent == v.r.link.sent + msgs && v.s.completeSent by {
      hide AllCovered, BudgetOk, BoundOk, NotedOk, PlanComing, DoneComing, R.AllShaped;
    }
    AddedIs(v.r, w.r, msgs);
    hide Good, R.Handle;
    EndFrame(x, v, w);
  }

  lemma FrameKeepsGood(x: Setup, v: Scene, k: nat)
    requires || Arrives(x, v, k)
             || (Good(x, v) && v.p != [] && R.Sane(v.r) && v.r.outcome == Succeeded && v.r.link.recvCounter <= k)
    ensures Good(x, AfterFrame(v, k))
  {
    if v.r.outcome == Succeeded {
      hide Good, AfterFrame;
      SettledArrives(x, v, k);
    } else {
      ArrivedFacts(x, v, k);
      hide Good, AfterFrame, Arrives;
      match v.p[0] {
        case ManifestMsg(_) => ManifestArrives(x, v, k);
        case BlockData(_, _, _, _) => DataArrives(x, v, k);
        case BlockHash(_, _, _) => HashArrives(x, v, k);
        case Complete(_) => CompleteArrives(x, v, k);
        case _ =>
      }
    }
  }
}
