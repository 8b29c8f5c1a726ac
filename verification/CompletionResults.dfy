/** Completion: from the start, or after any path change of any ordered run, two engines on a path
    that loses nothing end in success on both sides, however their turns are scheduled. */
module CompletionResults {
  import opened Wire
  import opened Geometry
  import opened ReceiverSafety
  import opened Engine
  import opened EngineResults
  import opened Cutover
  import opened CutoverResults
  import opened Completion
  import opened CompletionRuns
  import CF = CompletionFrames
  import CR = CompletionReplies
  import S = SenderModel
  import W = SenderWindow
  import R = ReceiverModel
  import F = ReceiverEffects

  /** Run has returned without an error and the receiver has delivered everything. */
  predicate BothDone(z: Lane) {
    z.y.s.pc == S.Returned(true) && z.y.s.outcome == Succeeded && z.y.r.outcome == Succeeded && z.y.r.out.closed
  }

  /** A turn that has something to do. */
  predicate Busy(x: Setup, z: Lane, t: Turn)
    requires S.ConfigOk(x.c)
  {
    match t
    case SenderRuns => S.RunStep(x.c, z.y.s, true) != z.y.s
    case FrameArrives => z.a < |z.y.s.link.sent|
    case ReplyArrives => z.b < |z.y.r.link.sent|
  }

  // ---------------------------------------------------------------- nothing to do is finished

  /** A sender that stands still waits for a plan, for Done, or for its window. */
  lemma StandsStill(c: S.Config, s: S.State)
    requires W.Inv(c, s) && S.ConfigOk(c) && S.RunStep(c, s, true) == s && !s.paused
    ensures || (s.pc.AwaitResume? && s.plan.applied == None && s.outcome == Running)
            || (s.pc.WaitDone? && s.outcome == Running)
            || s.pc.Returned?
            || (s.pc.Loop? && s.win.queue == [] && s.win.inflight != map[])
  {
    assert s.pc.Loop? || s.pc.Admitted? ==> S.ValidFile(c, s.tally.active);
    hide S.Pieces, S.Piece, Committed, CompletionDigest, S.Fragment, W.TallyOk, W.WindowOk, W.QueueOk, W.PlanOk;
  }

  lemma NothingCovered(x: Setup, v: Scene)
    requires Alive(v) && AllCovered(x.c, v) && NotedOk(v) && CF.Tight(x, v)
    requires v.s.pc.Loop? && v.s.win.queue == [] && v.p == [] && v.q == []
    ensures v.s.win.inflight == map[]
  {
    hide AllCovered, NotedOk, Alive, CF.Tight;
    forall b | b in v.s.win.inflight ensures false {
      OnlyNoted(x, v, b);
      OnlyNoted(x, v, v.r.prog.nextBlock);
    }
    assert v.s.win.inflight.Keys == {};
  }

  /** With nothing on its way and nothing queued, a block is covered only by a note. */
  lemma OnlyNoted(x: Setup, v: Scene, b: int)
    requires Alive(v) && AllCovered(x.c, v) && NotedOk(v) && CF.Tight(x, v)
    requires v.s.pc.Loop? && v.s.win.queue == [] && v.p == [] && v.q == [] && b in v.s.win.inflight
    ensures CF.SameFile(v) && v.r.prog.nextBlock < b && v.r.prog.nextBlock in v.s.win.inflight
  {
    assert Covered(x.c, v, b);
    assert Noted(v.r, v.s.tally.active, b);
    hide AllCovered;
    assert v.r.prog.nextBlock < b < v.s.pc.next;
  }

  lemma IdleIsFinished(x: Setup, z: Lane)
    requires LaneOk(x, z) && S.ConfigOk(x.c)
    requires forall t: Turn :: !Busy(x, z, t)
    ensures BothDone(z)
  {
    assert !Busy(x, z, SenderRuns) && !Busy(x, z, FrameArrives) && !Busy(x, z, ReplyArrives);
    var v := SceneOf(z);
    assert v.p == [] && v.q == [];
    assert Alive(v) && PlanComing(x.c, v) && DoneComing(v);
    assert W.Inv(x.c, z.y.s) by { LaneFacts(x, z); hide LaneOk; SenderInv(x, z.y); }
    assert CF.Tight(x, v) && AllCovered(x.c, v) && NotedOk(v) by { LaneFacts(x, z); hide LaneOk; WindowView(x, z); }
    hide LaneOk, Good, S.RunStep, CF.Tight, AllCovered, NotedOk, W.Inv, S.ConfigOk;
    StandsStill(x.c, z.y.s);
    if z.y.s.pc.Loop? && z.y.s.win.queue == [] { NothingCovered(x, v); }
  }

  // ---------------------------------------------------------------- every busy turn is progress

  function FilesLeft(x: Setup, r: R.State): nat {
    if r.prog.fileIdx <= Count(x) then 2 * (Count(x) - r.prog.fileIdx) + One(!r.prog.fileOpen) else 0
  }

  function BlocksLeft(r: R.State): nat {
    if r.prog.fileOpen && r.prog.nextBlock <= F.CurrentBlocks(r) then F.CurrentBlocks(r) - r.prog.nextBlock else 0
  }

  /** Whether the receiver may still ask for its next block. */
  function AskLeft(r: R.State): nat { One(!(r.prog.fileOpen && r.intake.nackOutstanding == r.prog.nextBlock)) }

  function Nacks(q: seq<Msg>): nat { if q == [] then 0 else Nacks(q[1..]) + One(q[0].Nack?) }

  function FileSteps(x: Setup, s: S.State): nat {
    match s.pc
    case Begin => 2 * Count(x) + 4
    case AwaitResume => 2 * Count(x) + 3
    case Activate(f) => if f <= Count(x) then 2 * (Count(x) - f) + 2 else 0
    case WaitDone => 1
    case Returned(_) => 0
    case _ => if 0 <= s.tally.active < Count(x) then 2 * (Count(x) - s.tally.active) + 1 else 0
  }

  function Unread(x: Setup, s: S.State): nat {
    if W.InFile(s.pc) && S.ValidFile(x.c, s.tally.active) && s.pc.next <= S.Pieces(x.c, s.tally.active)
    then S.Pieces(x.c, s.tally.active) - s.pc.next else 0
  }

  function HandSteps(s: S.State): nat {
    match s.pc
    case Retrying(b, _) => 3 + if b in s.win.inflight then |s.win.inflight[b].bytes| else 0
    case Sending(_, bytes, off, _) => 2 + if off <= |bytes| then |bytes| - off else 0
    case Loop(_) => 1
    case _ => 0
  }

  /** What a step of Run brings down, the first of these first. */
  predicate RunsDown(x: Setup, s: S.State, t: S.State) {
    || FileSteps(x, t) < FileSteps(x, s)
    || (FileSteps(x, t) == FileSteps(x, s)
        && (|| Unread(x, t) < Unread(x, s)
            || (Unread(x, t) == Unread(x, s)
                && (|t.win.queue| < |s.win.queue| || (t.win.queue == s.win.queue && HandSteps(t) < HandSteps(s))))))
  }

  lemma RunDrops(x: Setup, s: S.State)
    requires W.Inv(x.c, s) && SetupOk(x) && S.ConfigOk(x.c) && S.RunStep(x.c, s, true) != s
    requires !S.RunStep(x.c, s, true).outcome.Failed?
    requires (s.outcome == Succeeded ==> !W.InFile(s.pc) && !s.pc.AwaitResume?)
    ensures RunsDown(x, s, S.RunStep(x.c, s, true))
  {
    hide SetupOk, S.Pieces, S.Piece, Committed, CompletionDigest, S.Fragment, W.TallyOk, W.QueueOk, W.PlanOk, W.Behind;
    var t := S.RunStep(x.c, s, true);
  }

  /** What a frame brings down on the receiver's side, or leaves as it is. */
  predicate ReceivesDown(x: Setup, r: R.State, t: R.State, nacks: nat, nacks': nat) {
    || FilesLeft(x, t) < FilesLeft(x, r)
    || (FilesLeft(x, t) == FilesLeft(x, r)
        && (|| BlocksLeft(t) < BlocksLeft(r)
            || (BlocksLeft(t) == BlocksLeft(r)
                && (AskLeft(t) < AskLeft(r) || (AskLeft(t) == AskLeft(r) && nacks' == nacks)))))
  }

  lemma {:induction false} NacksAppend(q: seq<Msg>, more: seq<Msg>)
    ensures Nacks(q + more) == Nacks(q) + Nacks(more)
    decreases |q|
  {
    if q == [] {
      assert q + more == more;
    } else {
      assert (q + more)[1..] == q[1..] + more;
      NacksAppend(q[1..], more);
    }
  }

  lemma NacksOne(msgs: seq<Msg>)
    requires |msgs| <= 1
    ensures Nacks(msgs) == One(msgs != [] && msgs[0].Nack?)
  {
    if msgs != [] { assert Nacks(msgs[1..]) == 0; }
  }

  /** Progress only goes forward, so what is left only goes down. */
  lemma AdvancesDown(x: Setup, r: R.State, t: R.State)
    requires R.Advances(r.prog, t.prog) && t.prog.fileIdx <= Count(x)
    requires r.terms.manifest.Some? && t.terms.manifest == r.terms.manifest && F.Needy(r) && F.Needy(t)
    ensures FilesLeft(x, t) < FilesLeft(x, r)
            || (FilesLeft(x, t) == FilesLeft(x, r) && t.prog.fileIdx == r.prog.fileIdx && t.prog.fileOpen == r.prog.fileOpen
                && BlocksLeft(t) <= BlocksLeft(r)
                && (BlocksLeft(t) == BlocksLeft(r) && r.prog.fileOpen ==> t.prog.nextBlock == r.prog.nextBlock))
  {}

  lemma QuietDown(x: Setup, r: R.State, t: R.State, q: seq<Msg>, msgs: seq<Msg>)
    requires R.Advances(r.prog, t.prog) && t.prog.fileIdx <= Count(x)
    requires r.terms.manifest.Some? && t.terms.manifest == r.terms.manifest && F.Needy(r) && F.Needy(t)
    requires t.intake.nackOutstanding == r.intake.nackOutstanding
    requires |msgs| <= 1 && (msgs != [] ==> !msgs[0].Nack?)
    ensures ReceivesDown(x, r, t, Nacks(q), Nacks(q + msgs))
  {
    AdvancesDown(x, r, t);
    NacksAppend(q, msgs);
    NacksOne(msgs);
  }

  lemma HashDown(x: Setup, r: R.State, f: int, b: int, t: R.State, q: seq<Msg>)
    requires F.HashDone(r, f, b, t) && R.Advances(r.prog, t.prog) && t.prog.fileIdx <= Count(x)
    requires r.terms.manifest.Some? && F.Needy(r) && F.Needy(t)
    ensures ReceivesDown(x, r, t, Nacks(q), Nacks(q + CF.Added(r, t)))
  {
    AdvancesDown(x, r, t);
    if F.Repeated(r, f, b) {
      CF.AddedIs(r, t, [Ack(f, b)]);
      QuietDown(x, r, t, q, [Ack(f, b)]);
    } else if b > r.prog.nextBlock {
      var msgs := if r.intake.nackOutstanding == r.prog.nextBlock then [] else [Nack(f, r.prog.nextBlock)];
      CF.AddedIs(r, t, msgs);
      NacksAppend(q, msgs);
      NacksOne(msgs);
    }
  }

  lemma OpenSoon(x: Setup, r: R.State, t: R.State)
    requires r.prog.fileIdx == 0 && !r.prog.fileOpen && t.prog.fileIdx <= Count(x) && 0 < Count(x)
    requires !t.prog.fileOpen ==> t.prog.fileIdx == Count(x)
    ensures FilesLeft(x, t) < FilesLeft(x, r)
  {}

  /** A frame that a running receiver takes. */
  lemma FrameDrops(x: Setup, v: Scene, k: nat)
    requires CF.Arrives(x, v, k) && 0 < Count(x)
    requires var t := CF.AfterFrame(v, k).r;
             && t.prog.fileIdx <= Count(x) && R.Advances(v.r.prog, t.prog)
             && (t.outcome == Running ==> F.Needy(t) && (!t.prog.fileOpen ==> t.prog.fileIdx == Count(x)))
    ensures ReceivesDown(x, v.r, CF.AfterFrame(v, k).r, Nacks(v.q), Nacks(CF.AfterFrame(v, k).q))
  {
    CF.ArrivedFacts(x, v, k);
    hide Good, CF.Tight, CF.AfterFrame, R.AllShaped, R.ApplyManifest, R.OnBlockData, R.OnBlockHash, ReceivesDown,
      FilesLeft, BlocksLeft, AskLeft;
    var a, m, w := R.Accept(v.r, k), v.p[0], CF.AfterFrame(v, k);
    match m {
      case ManifestMsg(_) => ManifestDrops(x, v, k);
      case BlockData(f, b, off, p) =>
        F.DataEffect(a, f, b, off, p);
        CF.AddedIs(v.r, w.r, []);
        QuietDown(x, v.r, w.r, v.q, []);
      case BlockHash(f, b, sha) => HashDrops(x, v, k);
      case Complete(_) => CompleteDrops(x, v, k);
      case _ =>
    }
  }

  lemma ManifestDrops(x: Setup, v: Scene, k: nat)
    requires CF.Arrives(x, v, k) && 0 < Count(x) && v.p[0].ManifestMsg?
    requires var t := CF.AfterFrame(v, k).r;
             && t.prog.fileIdx <= Count(x) && R.Advances(v.r.prog, t.prog)
             && (t.outcome == Running ==> F.Needy(t) && (!t.prog.fileOpen ==> t.prog.fileIdx == Count(x)))
    ensures ReceivesDown(x, v.r, CF.AfterFrame(v, k).r, Nacks(v.q), Nacks(CF.AfterFrame(v, k).q))
  {
    CF.ArrivedFacts(x, v, k);
    hide Good, CF.Tight, CF.AfterFrame, R.AllShaped, R.ApplyManifest;
    var a, w := R.Accept(v.r, k), CF.AfterFrame(v, k);
    if v.r.terms.manifest == None {
      F.FirstManifestEffect(a, x.c.manifest);
      OpenSoon(x, v.r, w.r);
    } else {
      F.ManifestAgain(a, x.c.manifest);
      var msgs := if x.c.manifest.transferId == [] then [] else [ResumeMsg(a.terms.advertised.value)];
      CF.AddedIs(v.r, w.r, msgs);
      QuietDown(x, v.r, w.r, v.q, msgs);
    }
  }

  lemma HashDrops(x: Setup, v: Scene, k: nat)
    requires CF.Arrives(x, v, k) && v.p[0].BlockHash?
    requires var t := CF.AfterFrame(v, k).r;
             && t.prog.fileIdx <= Count(x) && R.Advances(v.r.prog, t.prog) && (t.outcome == Running ==> F.Needy(t))
    ensures ReceivesDown(x, v.r, CF.AfterFrame(v, k).r, Nacks(v.q), Nacks(CF.AfterFrame(v, k).q))
  {
    CF.ArrivedFacts(x, v, k);
    hide Good, CF.Tight, CF.AfterFrame, R.AllShaped, R.OnBlockHash, F.HashDone, ReceivesDown;
    var a, m, w := R.Accept(v.r, k), v.p[0], CF.AfterFrame(v, k);
    if v.r.intake.asm == None {
      F.HashSkipped(a, m.hashFile, m.hashBlock, m.sha);
      CF.AddedIs(v.r, w.r, []);
      QuietDown(x, v.r, w.r, v.q, []);
    } else {
      F.HashEffect(a, m.hashFile, m.hashBlock, m.sha);
      CF.HashTerms(a, m.hashFile, m.hashBlock, w.r);
      HashOutcome(a, m.hashFile, m.hashBlock, w.r);
      HashDown(x, a, m.hashFile, m.hashBlock, w.r, v.q);
      AcceptSame(x, v.r, k, w.r, Nacks(v.q), Nacks(w.q));
    }
  }

  lemma HashOutcome(r: R.State, f: int, b: int, t: R.State)
    requires F.HashDone(r, f, b, t)
    ensures t.outcome == r.outcome
  {
    hide F.Committed1;
  }

  lemma AcceptSame(x: Setup, r: R.State, k: nat, t: R.State, n: nat, m: nat)
    requires ReceivesDown(x, R.Accept(r, k), t, n, m)
    ensures ReceivesDown(x, r, t, n, m)
  {}

  lemma CompleteDrops(x: Setup, v: Scene, k: nat)
    requires CF.Arrives(x, v, k) && v.p[0].Complete?
    ensures ReceivesDown(x, v.r, CF.AfterFrame(v, k).r, Nacks(v.q), Nacks(CF.AfterFrame(v, k).q))
  {
    CF.ArrivedFacts(x, v, k);
    var w := CF.AfterFrame(v, k);
    assert w.r.prog == v.r.prog && w.r.link.sent == v.r.link.sent + [Done] && !v.r.prog.fileOpen && !w.r.prog.fileOpen by {
      hide Good, CF.Tight, R.AllShaped, CompletionDigest, CF.AfterFrame;
    }
    CF.AddedIs(v.r, w.r, [Done]);
    NacksAppend(v.q, [Done]);
    NacksOne([Done]);
  }

  /** A reply makes the queue longer only by a nack less on its way. */
  lemma ReplyDrops(c: S.Config, s: S.State, k: nat, q: seq<Msg>)
    requires q != [] && Back(q[0])
    ensures var t := S.Handle(c, s, Sealed(k, q[0]));
            && t.pc == s.pc && t.tally.active == s.tally.active
            && (Nacks(q[1..]) < Nacks(q) || (Nacks(q[1..]) == Nacks(q) && t.win.queue == s.win.queue))
            && (forall b :: b in t.win.inflight ==> b in s.win.inflight && t.win.inflight[b] == s.win.inflight[b])
  {
    hide S.BuildPlan;
  }

  /** The order in which turns bring a lane down. */
  predicate Below(x: Setup, u: Scene, v: Scene) {
    || FilesLeft(x, u.r) < FilesLeft(x, v.r)
    || (FilesLeft(x, u.r) == FilesLeft(x, v.r) && BelowBlocks(x, u, v))
  }

  predicate BelowBlocks(x: Setup, u: Scene, v: Scene) {
    || BlocksLeft(u.r) < BlocksLeft(v.r)
    || (BlocksLeft(u.r) == BlocksLeft(v.r)
        && (|| AskLeft(u.r) < AskLeft(v.r)
            || (AskLeft(u.r) == AskLeft(v.r)
                && (Nacks(u.q) < Nacks(v.q) || (Nacks(u.q) == Nacks(v.q) && BelowSender(x, u, v))))))
  }

  predicate BelowSender(x: Setup, u: Scene, v: Scene) {
    || FileSteps(x, u.s) < FileSteps(x, v.s)
    || (FileSteps(x, u.s) == FileSteps(x, v.s)
        && (|| Unread(x, u.s) < Unread(x, v.s)
            || (Unread(x, u.s) == Unread(x, v.s)
                && (|| |u.s.win.queue| < |v.s.win.queue|
                    || (|u.s.win.queue| == |v.s.win.queue| && BelowFrames(u, v))))))
  }

  predicate BelowFrames(u: Scene, v: Scene) {
    || HandSteps(u.s) < HandSteps(v.s)
    || (HandSteps(u.s) == HandSteps(v.s) && (|u.p| < |v.p| || (|u.p| == |v.p| && |u.q| < |v.q|)))
  }

  lemma SenderBelow(x: Setup, z: Lane)
    requires LaneOk(x, z) && S.ConfigOk(x.c) && Busy(x, z, SenderRuns)
    ensures R.WellFormed(z.y.r) && SetupOk(x) && Below(x, SceneOf(Take(x, z, SenderRuns)), SceneOf(z))
  {
    SenderTurn(x, z);
    assert Alive(SceneOf(z)) && Alive(SceneOf(Take(x, z, SenderRuns)));
    assert W.Inv(x.c, z.y.s) by { LaneFacts(x, z); hide LaneOk; SenderInv(x, z.y); }
    hide LaneOk, Good, R.WellFormed, W.Inv, Below, Take, S.RunStep, S.ConfigOk, SetupOk;
    RunSceneBelow(x, SceneOf(z));
  }

  lemma RunSceneBelow(x: Setup, v: Scene)
    requires W.Inv(x.c, v.s) && SetupOk(x) && S.ConfigOk(x.c) && S.RunStep(x.c, v.s, true) != v.s
    requires Alive(v) && Alive(AfterRun(x.c, v))
    ensures Below(x, AfterRun(x.c, v), v)
  {
    hide FileSteps, Unread, HandSteps, FilesLeft, BlocksLeft, AskLeft, S.RunStep, S.ConfigOk, SetupOk, W.Inv, Nacks;
    RunDrops(x, v.s);
  }

  lemma ReplyBelow(x: Setup, z: Lane)
    requires LaneOk(x, z) && S.ConfigOk(x.c) && Busy(x, z, ReplyArrives)
    ensures R.WellFormed(z.y.r) && SetupOk(x) && Below(x, SceneOf(Take(x, z, ReplyArrives)), SceneOf(z))
  {
    var v := SceneOf(z);
    ReplyTurn(x, z);
    assert Clean(v);
    hide LaneOk, Good, SetupOk, R.WellFormed, Below, Take, S.ConfigOk, CR.AfterReply;
    assert v.q != [];
    ReplySceneBelow(x, v, z.b);
  }

  lemma ReplySceneBelow(x: Setup, v: Scene, k: nat)
    requires v.q != [] && Back(v.q[0])
    ensures Below(x, CR.AfterReply(x.c, v, k), v)
  {
    hide FilesLeft, BlocksLeft, AskLeft, S.Handle, S.Pieces, Nacks, HandSteps;
    ReplyDrops(x.c, v.s, k, v.q);
    ReplyHand(v.s, S.Handle(x.c, v.s, Sealed(k, v.q[0])));
  }

  lemma ReplyHand(s: S.State, t: S.State)
    requires t.pc == s.pc && forall b :: b in t.win.inflight ==> b in s.win.inflight && t.win.inflight[b] == s.win.inflight[b]
    ensures HandSteps(t) <= HandSteps(s)
  {}

  lemma FrameBelow(x: Setup, z: Lane)
    requires LaneOk(x, z) && S.ConfigOk(x.c) && Busy(x, z, FrameArrives)
    ensures R.WellFormed(z.y.r) && SetupOk(x) && Below(x, SceneOf(Take(x, z, FrameArrives)), SceneOf(z))
  {
    var w, v := Take(x, z, FrameArrives), SceneOf(z);
    FrameTurn(x, z);
    assert Alive(v) && v.p != [];
    FrameProgress(x, z);
    hide LaneOk, Good, SetupOk, R.WellFormed, FilesLeft, BlocksLeft, AskLeft, FileSteps, Unread, HandSteps, R.Handle,
      S.ConfigOk;
    if v.r.outcome == Running {
      ReceivesBelow(x, SceneOf(w), v);
    } else {
      SettledDown(x, v, z.a);
      ReceivesBelow(x, SceneOf(w), v);
    }
  }

  lemma ReceivesBelow(x: Setup, u: Scene, v: Scene)
    requires ReceivesDown(x, v.r, u.r, Nacks(v.q), Nacks(u.q)) && u.s == v.s && |u.p| < |v.p|
    ensures FilesLeft(x, u.r) < FilesLeft(x, v.r) || (FilesLeft(x, u.r) == FilesLeft(x, v.r) && BelowBlocks(x, u, v))
  {
    hide FilesLeft, BlocksLeft, AskLeft, FileSteps, Unread, HandSteps;
  }

  /** A settled receiver keeps its progress. */
  lemma SettledDown(x: Setup, v: Scene, k: nat)
    requires v.p != [] && R.Sane(v.r) && v.r.outcome == Succeeded
    ensures ReceivesDown(x, v.r, CF.AfterFrame(v, k).r, Nacks(v.q), Nacks(CF.AfterFrame(v, k).q))
  {
    var w := CF.AfterFrame(v, k);
    var msgs := if v.p[0].Complete? && v.r.link.recvCounter <= k then [Done] else [];
    assert && w.r.prog == v.r.prog && w.r.terms == v.r.terms && w.r.intake == v.r.intake
           && w.r.link.sent == v.r.link.sent + msgs by {
      hide R.AllShaped;
    }
    CF.AddedIs(v.r, w.r, msgs);
    NacksAppend(v.q, msgs);
    NacksOne(msgs);
  }

  /** A running receiver's frame, with what the invariant says of the state after it. */
  lemma FrameProgress(x: Setup, z: Lane)
    requires LaneOk(x, z) && z.a < |z.y.s.link.sent|
    requires R.WellFormed(z.y.r) && SetupOk(x) && LaneOk(x, Take(x, z, FrameArrives)) && R.Sane(z.y.r)
    requires SceneOf(z).p != [] && SceneOf(Take(x, z, FrameArrives)) == CF.AfterFrame(SceneOf(z), z.a)
    ensures z.y.r.outcome == Running ==>
              ReceivesDown(x, z.y.r, Take(x, z, FrameArrives).y.r,
                           Nacks(SceneOf(z).q), Nacks(SceneOf(Take(x, z, FrameArrives)).q))
  {
    if z.y.r.outcome == Running {
      var w, v := Take(x, z, FrameArrives), SceneOf(z);
      ArrivesNow(x, z);
      LaneFacts(x, z);
      LaneFacts(x, w);
      hide LaneOk, CutoverInv, Good, Roomy, ReceivesDown, R.Handle, SetupOk, R.WellFormed, CF.Arrives, Take, Placed;
      ProgressFacts(x, z);
      ProgressFacts(x, w);
      AdvancesHandled(z.y.r, Sealed(z.a, v.p[0]));
      RunningKnown(x, v, z.a);
      FrameDrops(x, v, z.a);
    }
  }

  lemma RunningKnown(x: Setup, v: Scene, k: nat)
    requires CF.Arrives(x, v, k)
    ensures CF.AfterFrame(v, k).r.outcome == Running ==> CF.AfterFrame(v, k).r.terms.manifest.Some?
  {
    CF.ArrivedFacts(x, v, k);
    hide Good, CF.Tight, CF.AfterFrame, R.AllShaped, R.OpenNextFile;
    var a, w := R.Accept(v.r, k), CF.AfterFrame(v, k);
    if v.r.terms.manifest == None { F.FirstManifestEffect(a, x.c.manifest); }
  }

  lemma ArrivesNow(x: Setup, z: Lane)
    requires LaneOk(x, z) && z.a < |z.y.s.link.sent| && z.y.r.outcome == Running
    requires R.WellFormed(z.y.r) && SetupOk(x) && LaneOk(x, Take(x, z, FrameArrives)) && R.Sane(z.y.r)
    requires SceneOf(z).p != [] && SceneOf(Take(x, z, FrameArrives)) == CF.AfterFrame(SceneOf(z), z.a)
    ensures CF.Arrives(x, SceneOf(z), z.a)
  {
    LaneFacts(x, z);
    HeadView(x, z);
    assert Alive(SceneOf(Take(x, z, FrameArrives))) && Good(x, SceneOf(z));
    hide LaneOk, CutoverInv, Good, Roomy, R.Handle, SetupOk, R.WellFormed, CF.HeadKnown, CF.Tight, Take;
    ReceiverView(x, z);
    WindowView(x, z);
  }

  lemma AdvancesHandled(r: R.State, frame: Frame)
    requires R.Sane(r) && (r.terms.manifest.Some? || !r.prog.fileOpen)
    ensures R.Advances(r.prog, R.Handle(r, frame, R.NoFault).prog)
  {}

  lemma ProgressFacts(x: Setup, z: Lane)
    requires CutoverInv(x, z.y, z.gap)
    ensures z.y.r.prog.fileIdx <= Count(x) && 0 < Count(x) && (z.y.r.terms.manifest.Some? || !z.y.r.prog.fileOpen)
    ensures z.y.r.outcome == Running && z.y.r.terms.manifest.Some? ==>
              F.Needy(z.y.r) && (!z.y.r.prog.fileOpen ==> z.y.r.prog.fileIdx == Count(x))
  {
    hide Stable, Fits, Answered, StreamOk, HistoryOk, RepliesOk, IntakeOk, Reached, W.Inv, Linked, Agreed, AllGenuine;
    hide SentOk, LogOk, AsmOk, Live, Held, R.SeedOk, SinkOk, HostHonest;
  }
}
