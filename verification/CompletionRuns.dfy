/** A transfer that goes on over a path that loses nothing: in every order of the engines' own
    steps and of frames and replies arriving, both engines keep their invariants and what they
    need stays on its way. */
module CompletionRuns {
  import opened Wire
  import opened Geometry
  import opened ReceiverSafety
  import opened Engine
  import opened EngineResults
  import opened Cutover
  import opened CutoverResults
  import opened Completion
  import CF = CompletionFrames
  import CR = CompletionReplies
  import S = SenderModel
  import W = SenderWindow
  import R = ReceiverModel
  import F = ReceiverEffects
  import SafePath

  /** The two engines, and which frame arrives next on either side. */
  datatype Lane = Lane(y: System, gap: bool, a: nat, b: nat)

  datatype Turn = SenderRuns | FrameArrives | ReplyArrives

  function Tail(q: seq<Msg>, n: nat): seq<Msg> { if n <= |q| then q[n..] else [] }

  function SceneOf(z: Lane): Scene {
    Scene(z.y.s, z.y.r, Tail(z.y.s.link.sent, z.a), Tail(z.y.r.link.sent, z.b))
  }

  /** One turn: a step of Run, or the next frame or reply in order. */
  function Take(x: Setup, z: Lane, t: Turn): (w: Lane)
    requires SetupOk(x) && R.WellFormed(z.y.r)
    ensures R.WellFormed(w.y.r)
  {
    match t
    case SenderRuns => z.(y := Apply(x, z.y, SenderStep(S.Advance(true))))
    case FrameArrives =>
      if z.a < |z.y.s.link.sent| then
        Lane(Apply(x, z.y, ToReceiver(z.a, R.NoFault)), z.gap && z.y.r.outcome != Running, z.a + 1, z.b)
      else z
    case ReplyArrives =>
      if z.b < |z.y.r.link.sent| then Lane(Apply(x, z.y, ToSender(z.b)), z.gap, z.a, z.b + 1) else z
  }

  /** The window is no longer than the receiver's notes, frames fit their header, and the host's
      claim, if it is about this transfer, passes the receiver's checks. */
  predicate Roomy(x: Setup) {
    && x.c.window <= DEFAULT_INFLIGHT_BLOCKS && x.c.frameSize <= MAX_FRAME_PAYLOAD
    && (x.host.Some? && x.host.value.transferId == x.c.manifest.transferId && x.c.manifest.transferId != [] ==>
          R.SeedOk(x.c.manifest, x.host.value))
  }

  /** Where the next frames stand. */
  predicate Placed(z: Lane) {
    && z.a <= |z.y.s.link.sent| && z.b <= |z.y.r.link.sent|
    && z.y.r.link.recvCounter <= z.a && z.y.s.link.recvCounter <= z.b
    && (z.y.r.outcome == Running ==> z.gap || z.a == z.y.r.link.recvCounter)
  }

  predicate LaneOk(x: Setup, z: Lane) {
    && CutoverInv(x, z.y, z.gap) && Roomy(x) && Placed(z) && Good(x, SceneOf(z))
  }

  // ---------------------------------------------------------------- the sender's turn

  lemma SenderView(x: Setup, z: Lane)
    requires CutoverInv(x, z.y, z.gap) && Roomy(x)
    ensures SenderKnown(x.c, SceneOf(z)) && 0 < x.c.maxRetries && SetupOk(x) && S.ConfigOk(x.c)
  {
    hide SystemInv, Stable, Fits, Answered, StreamOk, IntakeOk, Reached, W.Inv;
    SenderInv(x, z.y);
    var v, at, known := SceneOf(z), ReachOf(z.y.s), z.y.r.terms.manifest.Some?;
    forall i | 0 <= i < |v.p| && v.p[i].BlockHash? ensures v.p[i].hashFile <= z.y.s.tally.active {
      assert FromSender(x.c, z.y.s.link.sent[z.a + i], at);
    }
    forall i | 0 <= i < |v.q| && v.q[i].Nack? ensures v.q[i].nackFile <= z.y.s.tally.active {
      assert FromReceiver(z.y.r.link.sent[z.b + i], at, known);
    }
  }

  lemma TailPush(q: seq<Msg>, n: nat, more: seq<Msg>)
    requires n <= |q|
    ensures Tail(q + more, n) == Tail(q, n) + more
  {}

  lemma SenderTurn(x: Setup, z: Lane)
    requires LaneOk(x, z)
    ensures R.WellFormed(z.y.r) && SetupOk(x) && LaneOk(x, Take(x, z, SenderRuns))
    ensures S.ConfigOk(x.c) && SceneOf(Take(x, z, SenderRuns)) == AfterRun(x.c, SceneOf(z))
  {
    hide CutoverInv, Good, AfterRun, Expected, Missed;
    CutoverFacts(x, z.y, z.gap);
    SenderView(x, z);
    SenderKeepsGood(x, SceneOf(z));
    var e := SenderStep(S.Advance(true));
    assert R.Sane(z.y.r) && Expected(z.y, z.gap, e) && !Missed(z.y, e) by { QuietEvent(x, z, e); }
    EventKeeps(x, z.y, z.gap, e);
    RunScene(x, z);
  }

  lemma QuietEvent(x: Setup, z: Lane, e: Event)
    requires R.WellFormed(z.y.r) && (e.SenderStep? || e.ToSender?)
    ensures R.Sane(z.y.r) && Expected(z.y, z.gap, e) && !Missed(z.y, e)
  {}

  lemma RunScene(x: Setup, z: Lane)
    requires SetupOk(x) && R.WellFormed(z.y.r) && S.ConfigOk(x.c) && Placed(z)
    ensures SceneOf(Take(x, z, SenderRuns)) == AfterRun(x.c, SceneOf(z)) && Placed(Take(x, z, SenderRuns))
  {
    hide SetupOk, S.ConfigOk, R.WellFormed, S.RunStep;
    var t := S.RunStep(x.c, z.y.s, true);
    var more := t.link.sent[|z.y.s.link.sent|..];
    assert t.link.sent == z.y.s.link.sent + more;
    TailPush(z.y.s.link.sent, z.a, more);
  }

  // ---------------------------------------------------------------- a reply's turn

  lemma ReplyView(x: Setup, z: Lane)
    requires CutoverInv(x, z.y, z.gap)
    ensures CR.RepliesKnown(x, SceneOf(z))
  {
    hide Stable, Fits, Answered, StreamOk, IntakeOk, Reached, HistoryOk, RepliesOk;
    var v := SceneOf(z);
    SentFacts(x, z.y);
    forall i | 0 <= i < |v.q| ensures AckOk(x, z.y.r.prog, z.y.r.out, v.q[i]) {
      assert v.q[i] == z.y.r.link.sent[z.b + i];
    }
  }

  lemma SentFacts(x: Setup, y: System)
    requires SystemInv(x, y)
    ensures W.QueueOk(y.s.win)
    ensures forall i :: 0 <= i < |y.r.link.sent| ==> AckOk(x, y.r.prog, y.r.out, y.r.link.sent[i])
  {
    hide W.PlanOk, W.Position, SetupOk, TermsOk, SinksOk, LogOk, AsmOk, Live, AckOk, Linked, Agreed, AllGenuine;
  }

  /** The replies of this lane can only fail a sender for integrity. */
  lemma ReplyReason(c: S.Config, s: S.State, k: nat, m: Msg)
    requires Back(m) && (s.outcome == Running || s.outcome == Succeeded)
    ensures var t := S.Handle(c, s, Sealed(k, m)); t.outcome.Failed? ==> t.outcome == Failed(Integrity)
    ensures S.Handle(c, s, Sealed(k, m)).link.recvCounter <= (if s.link.recvCounter <= k then k + 1 else s.link.recvCounter)
  {
    hide S.BuildPlan;
  }

  lemma ReplyScene(x: Setup, z: Lane)
    requires SetupOk(x) && R.WellFormed(z.y.r) && SystemInv(x, z.y) && Placed(z) && z.b < |z.y.r.link.sent|
    requires (z.y.s.outcome == Running || z.y.s.outcome == Succeeded) && Back(z.y.r.link.sent[z.b])
    ensures SceneOf(z).q != [] && SceneOf(z).q[0] == z.y.r.link.sent[z.b]
    ensures SceneOf(Take(x, z, ReplyArrives)) == CR.AfterReply(x.c, SceneOf(z), z.b)
    ensures Placed(Take(x, z, ReplyArrives))
    ensures Take(x, z, ReplyArrives).y == Apply(x, z.y, ToSender(z.b))
  {
    FramesNumbered(x, z.y);
    hide SetupOk, R.WellFormed, SystemInv, S.Handle;
    assert SceneOf(z).q[1..] == Tail(z.y.r.link.sent, z.b + 1);
    ReplyReason(x.c, z.y.s, z.b, z.y.r.link.sent[z.b]);
  }

  lemma ReplyTurn(x: Setup, z: Lane)
    requires LaneOk(x, z)
    ensures R.WellFormed(z.y.r) && SetupOk(x) && LaneOk(x, Take(x, z, ReplyArrives))
    ensures SceneOf(z).q != [] ==> SceneOf(Take(x, z, ReplyArrives)) == CR.AfterReply(x.c, SceneOf(z), z.b)
  {
    assert Alive(SceneOf(z)) && Clean(SceneOf(z));
    hide CutoverInv, Good, Expected, Missed, S.Handle, CR.RepliesKnown, Apply, SystemInv, SetupOk, R.WellFormed;
    CutoverFacts(x, z.y, z.gap);
    if z.b < |z.y.r.link.sent| {
      var e, v := ToSender(z.b), SceneOf(z);
      assert v.q[0] == z.y.r.link.sent[z.b];
      assert R.Sane(z.y.r) && Expected(z.y, z.gap, e) && !Missed(z.y, e) by { QuietEvent(x, z, e); }
      EventKeeps(x, z.y, z.gap, e);
      CutoverFacts(x, Apply(x, z.y, e), z.gap);
      ReplyScene(x, z);
      ReplyReason(x.c, z.y.s, z.b, v.q[0]);
      ReplyView(x, z);
      CR.ReplyKeepsGood(x, v, z.b);
    }
  }

  // ---------------------------------------------------------------- a frame's turn

  lemma ReceiverView(x: Setup, z: Lane)
    requires CutoverInv(x, z.y, z.gap) && z.y.r.outcome == Running
    ensures CF.ReceiverKnown(x, SceneOf(z))
  {
    hide Stable, Fits, Answered, StreamOk, Reached, HistoryOk, RepliesOk, W.Inv, Linked, Agreed, AllGenuine;
    hide SinksOk, SentOk, LogOk, AsmOk, Live, HostHonest, R.SeedOk;
    assert SetupOk(x);
  }

  /** How the window relates to a receiver in the same file. */
  lemma WindowView(x: Setup, z: Lane)
    requires CutoverInv(x, z.y, z.gap) && Roomy(x)
    ensures CF.Tight(x, SceneOf(z))
  {
    var s, r, v := z.y.s, z.y.r, SceneOf(z);
    assert |s.win.inflight| <= x.c.window by { WindowBound(x, z); }
    if CF.SameFile(v) {
      SameFileFacts(x, z);
      hide CutoverInv;
    }
  }

  lemma WindowBound(x: Setup, z: Lane)
    requires CutoverInv(x, z.y, z.gap)
    ensures |z.y.s.win.inflight| <= x.c.window
  {
    hide Stable, Fits, Answered, StreamOk, Reached, HistoryOk, RepliesOk, IntakeOk, Linked, Agreed, AllGenuine,
      ReceiverSafety.Inv;
    hide SetupOk, W.PlanOk, W.Position, W.QueueOk;
  }

  lemma SameFileFacts(x: Setup, z: Lane)
    requires CutoverInv(x, z.y, z.gap) && CF.SameFile(SceneOf(z))
    ensures var s, r, f := z.y.s, z.y.r, z.y.r.prog.fileIdx;
            && s.pc.next <= F.CurrentBlocks(r) && f < Count(x)
            && F.CurrentBlocks(r) == Entry(x, f).blocks && 0 <= r.prog.nextBlock
            && (forall b :: r.prog.nextBlock <= b < s.pc.next ==> b in s.win.inflight)
            && (forall b :: b in s.win.inflight ==> 0 <= b < s.pc.next)
  {
    var y, f := z.y, z.y.r.prog.fileIdx;
    assert SystemInv(x, y) && Stable(x);
    assert && y.r.terms.manifest == Some(x.c.manifest) && R.HasCurrent(y.r)
           && f < Count(x) && Held(x, f) <= y.r.prog.nextBlock by {
      OpenFacts(x, z);
    }
    PlanMatches(x, y);
    Facts(x, y);
    hide CutoverInv, SystemInv;
    assert S.Pieces(x.c, f) == Entry(x, f).blocks by { hide S.ConfigOk; PiecesAre(x, f); }
    assert 0 <= Held(x, f);
    hide Held, Stable, SetupOk, Blocks;
    forall b | y.r.prog.nextBlock <= b < y.s.pc.next ensures b in y.s.win.inflight {
      assert !IsCommitted(x, y.r.prog, f, b);
    }
  }

  lemma PiecesAre(x: Setup, f: nat)
    requires SetupOk(x) && Stable(x) && f < Count(x)
    ensures S.ValidFile(x.c, f) && S.Pieces(x.c, f) == Entry(x, f).blocks && 0 <= Held(x, f)
  {
    hide Held;
    assert HostHonest(x, f);
  }

  lemma OpenFacts(x: Setup, z: Lane)
    requires CutoverInv(x, z.y, z.gap) && z.y.r.outcome == Running && z.y.r.prog.fileOpen
    ensures var r, f := z.y.r, z.y.r.prog.fileIdx;
            && r.terms.manifest == Some(x.c.manifest) && R.HasCurrent(r) && f < Count(x)
            && 0 <= Held(x, f) <= r.prog.nextBlock < Entry(x, f).blocks
  {
    hide Stable, Fits, Answered, StreamOk, HistoryOk, RepliesOk, IntakeOk, Reached, W.Inv, Linked, Agreed, AllGenuine;
    hide SinksOk, SentOk, LogOk, AsmOk, Live, Held, R.SeedOk;
    assert HostHonest(x, z.y.r.prog.fileIdx) || z.y.r.prog.fileIdx >= Count(x);
  }

  /** A running sender is in the file of a block the receiver still lacks. */
  lemma LackingInFile(x: Setup, y: System, f: nat, b: nat)
    requires SystemInv(x, y) && Stable(x) && f < Count(x) && y.s.tally.active == f && !y.s.pc.Returned?
    requires Held(x, f) <= b < Entry(x, f).blocks && !IsCommitted(x, y.r.prog, f, b)
    ensures W.InFile(y.s.pc)
  {
    Facts(x, y);
    if y.s.pc.Activate? || y.s.pc.WaitDone? {
      PlanMatches(x, y);
      hide SystemInv, Stable, Held;
      assert S.ValidFile(x.c, f) && b < S.Pieces(x.c, f) by { PiecesAreIn(x, y, f); }
    }
    hide SystemInv, Stable, Held, SetupOk, SinksOk, W.PlanOk, W.TallyOk, W.WindowOk, W.PcOk, IsCommitted;
  }

  lemma PiecesAreIn(x: Setup, y: System, f: nat)
    requires SystemInv(x, y) && Stable(x) && f < Count(x)
    ensures S.ValidFile(x.c, f) && S.Pieces(x.c, f) == Entry(x, f).blocks && 0 <= Held(x, f)
  {
    hide Held, W.Inv, ReceiverSafety.Inv, Linked, Agreed, AllGenuine;
    PiecesAre(x, f);
  }

  /** The next frame, as the receiver finds it. */
  lemma HeadView(x: Setup, z: Lane)
    requires LaneOk(x, z) && z.y.r.outcome == Running && z.a < |z.y.s.link.sent|
    ensures SceneOf(z).p != [] && CF.HeadKnown(x, SceneOf(z))
  {
    var y, m, at := z.y, z.y.s.link.sent[z.a], ReachOf(z.y.s);
    assert SceneOf(z).p[0] == m;
    assert Alive(SceneOf(z));
    hide LaneOk;
    assert CutoverInv(x, y, z.gap) && y.r.link.recvCounter <= z.a && (z.gap || z.a == y.r.link.recvCounter) by {
      LaneFacts(x, z);
    }
    AcceptReady(x, y, z.gap, z.a);
    assert ReceiverSpot(R.Accept(y.r, z.a)) == ReceiverSpot(y.r);
    ReceiverFacts(x, y, z.gap);
    assert SystemInv(x, y) && Stable(x) && SetupOk(x) by { InvParts(x, z); }
    if y.r.terms.manifest.Some? { NotBehind(x, y.r, at); }
    if m.BlockHash? && y.r.prog.fileOpen && m.hashFile == y.r.prog.fileIdx && y.r.prog.nextBlock <= m.hashBlock {
      OpenFacts(x, z);
      PiecesAreIn(x, y, m.hashFile);
      hide CutoverInv, SystemInv, Stable, SetupOk, ReceiverSafety.Inv, Next, ReceiverHalf, HistoryOk, Ready, Reached,
        S.ValidFile;
      HashFacts(x, y, z.gap, z.a);
      LackingInFile(x, y, m.hashFile, m.hashBlock);
    } else {
      hide CutoverInv, SystemInv, Stable, SetupOk, ReceiverSafety.Inv, Next, ReceiverHalf, HistoryOk, Reached,
        S.ValidFile;
    }
  }

  lemma LaneFacts(x: Setup, z: Lane)
    requires LaneOk(x, z)
    ensures CutoverInv(x, z.y, z.gap) && Roomy(x) && Placed(z)
  {}

  lemma InvParts(x: Setup, z: Lane)
    requires CutoverInv(x, z.y, z.gap)
    ensures SystemInv(x, z.y) && Stable(x) && SetupOk(x)
  {}

  /** A hash the receiver has not got past is of the sender's file. */
  lemma HashFacts(x: Setup, y: System, gap: bool, i: nat)
    requires CutoverInv(x, y, gap) && i < |y.s.link.sent| && y.s.link.sent[i].BlockHash?
    requires y.r.outcome == Running && y.r.prog.fileOpen && y.s.link.sent[i].hashFile == y.r.prog.fileIdx < Count(x)
    requires Passed(x, ReachOf(y.s)) <= y.r.prog.fileIdx
    ensures var m := y.s.link.sent[i];
            y.s.tally.active == m.hashFile && S.ValidFile(x.c, m.hashFile) && 0 <= m.hashBlock < S.Pieces(x.c, m.hashFile)
  {
    hide SystemInv, Stable, Fits, Answered, StreamOk, RepliesOk, IntakeOk, Reached;
    assert FromSender(x.c, y.s.link.sent[i], ReachOf(y.s));
  }

  /** A running receiver is not failed by the next frame. */
  lemma FrameSucceeds(x: Setup, z: Lane)
    requires LaneOk(x, z) && z.y.r.outcome == Running && z.a < |z.y.s.link.sent|
    requires R.Sane(z.y.r)
    ensures !R.Handle(z.y.r, Sealed(z.a, z.y.s.link.sent[z.a]), R.NoFault).outcome.Failed?
  {
    hide LaneOk, CutoverInv, R.Handle, R.AllShaped, R.AdoptSeed, SafePath.Validate, Roomy, ReceiverHalf, R.Sane;
    var y, m := z.y, z.y.s.link.sent[z.a];
    HeadIsForth(x, z);
    LaneFacts(x, z);
    FreshFrameHalf(x, y, z.gap, z.a, R.NoFault);
    HalfOutcome(x, y, R.Handle(y.r, Sealed(z.a, m), R.NoFault));
    SeedAdopted(x, z);
    HandleReasons(y.r, z.a, m);
    if m.ManifestMsg? { HistoryManifest(x, y, z.gap, z.a); }
  }

  lemma HeadIsForth(x: Setup, z: Lane)
    requires LaneOk(x, z) && z.a < |z.y.s.link.sent|
    ensures SceneOf(z).p != [] && SceneOf(z).p[0] == z.y.s.link.sent[z.a] && Forth(z.y.s.link.sent[z.a])
  {
    assert Clean(SceneOf(z));
    hide CutoverInv, Good;
    assert SceneOf(z).p[0] == z.y.s.link.sent[z.a];
  }

  lemma HalfOutcome(x: Setup, y: System, r: R.State)
    requires ReceiverHalf(x, y, r, false)
    ensures GoodOutcome(r.outcome)
  {}

  lemma HistoryManifest(x: Setup, y: System, gap: bool, i: nat)
    requires CutoverInv(x, y, gap) && i < |y.s.link.sent| && y.s.link.sent[i].ManifestMsg?
    ensures y.s.link.sent[i].manifest == x.c.manifest
  {
    hide SystemInv, Stable, Fits, Answered, StreamOk, RepliesOk, IntakeOk, Reached;
    assert FromSender(x.c, y.s.link.sent[i], ReachOf(y.s));
  }

  lemma HandleReasons(r: R.State, k: nat, m: Msg)
    requires R.Sane(r) && r.outcome == Running && r.link.recvCounter <= k && Forth(m)
    ensures var t := R.Handle(r, Sealed(k, m), R.NoFault);
            t.outcome.Failed? ==>
              || t.outcome.reason == Integrity || t.outcome.reason == DigestMismatch
              || (&& m.ManifestMsg? && r.terms.manifest == None && SafePath.Validate(m.manifest).Some?
                  && SafePath.Validate(m.manifest).value.transferId != []
                  && R.AdoptSeed(r.terms, SafePath.Validate(m.manifest).value) == None)
  {
    hide R.AllShaped, SafePath.Validate, R.AdoptSeed, R.ApplyManifest, R.OnBlockData, R.OnBlockHash, R.OnComplete;
    var a := R.Accept(r, k);
    CF.DispatchRuns(a, m);
    if R.Dispatch(a, m, R.NoFault).Err? { F.DispatchReasons(a, m); } else { OkOutcome(a, m); }
  }

  lemma OkOutcome(r: R.State, m: Msg)
    requires R.Sane(r) && r.outcome == Running && Forth(m) && R.Dispatch(r, m, R.NoFault).Ok?
    ensures !R.Dispatch(r, m, R.NoFault).st.outcome.Failed?
  {
    hide R.AllShaped, SafePath.Validate, CompletionDigest;
    if m.BlockHash? { CF.HashRuns(r, m); }
  }

  lemma SeedAdopted(x: Setup, z: Lane)
    requires CutoverInv(x, z.y, z.gap) && Roomy(x)
    ensures SafePath.Validate(x.c.manifest) == Some(x.c.manifest)
    ensures x.c.manifest.transferId != [] ==> R.AdoptSeed(z.y.r.terms, x.c.manifest).Some?
  {
    hide Stable, Fits, Answered, StreamOk, Reached, HistoryOk, RepliesOk, W.Inv, Linked, Agreed, AllGenuine;
    hide SinksOk, SentOk, LogOk, AsmOk, Live, HostHonest, R.SeedOk, R.ReusedBytes;
  }

  /** A settled receiver's answers keep the invariant, whatever it has not seen. */
  lemma SettledDelivery(x: Setup, y: System, gap: bool, i: nat)
    requires CutoverInv(x, y, gap) && y.r.outcome != Running && i < |y.s.link.sent|
    ensures SetupOk(x) && R.WellFormed(y.r) && CutoverInv(x, Apply(x, y, ToReceiver(i, R.NoFault)), gap)
  {
    hide CutoverInv, R.Handle, SystemInv, ReceiverHalf;
    CutoverFacts(x, y, gap);
    FramesNumbered(x, y);
    WholeStep(x, y, ToReceiver(i, R.NoFault));
    SettledHalf(x, y, gap, i);
    ReceiverHalfKeeps(x, y, gap, Apply(x, y, ToReceiver(i, R.NoFault)).r, gap);
  }

  lemma SettledHalf(x: Setup, y: System, gap: bool, i: nat)
    requires CutoverInv(x, y, gap) && y.r.outcome != Running && i < |y.s.link.sent|
    ensures R.Sane(y.r) && ReceiverHalf(x, y, R.Handle(y.r, Sealed(i, y.s.link.sent[i]), R.NoFault), gap)
  {
    hide CutoverInv, Reached, RepliesOk, IntakeOk, StreamOk, ReceiverSafety.Inv, Stable, S.Piece, S.Pieces, S.ValidFile;
    ReceiverFacts(x, y, gap);
    if y.r.outcome == Succeeded && y.s.link.sent[i].Complete? {
      assert FromSender(x.c, y.s.link.sent[i], ReachOf(y.s));
      PushReply(y.r.link.sent, Done, ReachOf(y.s), y.r.terms.manifest.Some?);
    }
  }

  lemma FrameScene(x: Setup, z: Lane)
    requires SetupOk(x) && R.WellFormed(z.y.r) && SystemInv(x, z.y) && z.a < |z.y.s.link.sent|
    requires R.Sane(z.y.r) && Placed(z)
    ensures SceneOf(z).p != [] && SceneOf(z).p[0] == z.y.s.link.sent[z.a]
    ensures SceneOf(Take(x, z, FrameArrives)) == CF.AfterFrame(SceneOf(z), z.a)
    ensures Take(x, z, FrameArrives).y == Apply(x, z.y, ToReceiver(z.a, R.NoFault))
    ensures Take(x, z, FrameArrives).a == z.a + 1 && z.b <= |Take(x, z, FrameArrives).y.r.link.sent|
    ensures Take(x, z, FrameArrives).y.r.link.recvCounter <= z.a + 1
    ensures z.y.r.outcome == Running && Take(x, z, FrameArrives).y.r.outcome == Running ==>
              Take(x, z, FrameArrives).y.r.link.recvCounter == z.a + 1
    ensures z.y.r.outcome != Running ==> Take(x, z, FrameArrives).y.r.outcome == z.y.r.outcome
  {
    FramesNumbered(x, z.y);
    hide SetupOk, R.WellFormed, SystemInv, R.Dispatch, R.AllShaped;
    assert SceneOf(z).p[1..] == Tail(z.y.s.link.sent, z.a + 1);
    var t := R.Handle(z.y.r, Sealed(z.a, z.y.s.link.sent[z.a]), R.NoFault);
    assert z.y.r.link.sent <= t.link.sent;
    assert t.link.sent == z.y.r.link.sent + CF.Added(z.y.r, t);
    TailPush(z.y.r.link.sent, z.b, CF.Added(z.y.r, t));
  }

  lemma FrameTurn(x: Setup, z: Lane)
    requires LaneOk(x, z)
    ensures R.WellFormed(z.y.r) && SetupOk(x) && LaneOk(x, Take(x, z, FrameArrives))
    ensures R.Sane(z.y.r)
    ensures SceneOf(z).p != [] ==> SceneOf(Take(x, z, FrameArrives)) == CF.AfterFrame(SceneOf(z), z.a)
  {
    assert Alive(SceneOf(z)) && Clean(SceneOf(z));
    hide CutoverInv, Good, Expected, Missed, R.Handle, Apply, SystemInv, SetupOk, R.WellFormed, CF.HeadKnown,
      CF.Tight, CF.ReceiverKnown;
    CutoverFacts(x, z.y, z.gap);
    SaneParts(z.y.r);
    if z.a < |z.y.s.link.sent| {
      FrameScene(x, z);
      if z.y.r.outcome == Running {
        RunningFrame(x, z);
      } else {
        SettledDelivery(x, z.y, z.gap, z.a);
        CF.FrameKeepsGood(x, SceneOf(z), z.a);
      }
    }
  }

  lemma SaneParts(r: R.State)
    requires R.WellFormed(r)
    ensures R.Sane(r)
  {}

  lemma RunningFrame(x: Setup, z: Lane)
    requires LaneOk(x, z) && z.y.r.outcome == Running && z.a < |z.y.s.link.sent| && R.Sane(z.y.r)
    requires SetupOk(x) && R.WellFormed(z.y.r)
    ensures var e := ToReceiver(z.a, R.NoFault);
            CutoverInv(x, Apply(x, z.y, e), false) && Good(x, CF.AfterFrame(SceneOf(z), z.a))
  {
    hide CutoverInv, Good, R.Handle, Apply, SetupOk, R.WellFormed, CF.HeadKnown, CF.Tight, CF.ReceiverKnown, SystemInv;
    var e := ToReceiver(z.a, R.NoFault);
    assert Expected(z.y, z.gap, e) && !Missed(z.y, e);
    EventKeeps(x, z.y, z.gap, e);
    ReceiverView(x, z);
    WindowView(x, z);
    HeadView(x, z);
    HeadIsForth(x, z);
    FrameSucceeds(x, z);
    assert CF.Arrives(x, SceneOf(z), z.a) by { hide CF.HeadKnown; }
    CF.FrameKeepsGood(x, SceneOf(z), z.a);
  }
}
