/** Where completion starts from: a fresh transfer, and any ordered run whose path has just
    changed with everything on its way lost. */
module CompletionStarts {
  import opened Wire
  import opened Geometry
  import opened ReceiverSafety
  import opened Engine
  import opened EngineResults
  import opened Cutover
  import opened CutoverResults
  import opened Completion
  import opened CompletionRuns
  import opened CompletionResults
  import opened CompletionTheorem
  import CF = CompletionFrames
  import S = SenderModel
  import W = SenderWindow
  import R = ReceiverModel
  import SafePath

  // ---------------------------------------------------------------- what every run keeps besides

  /** A destination is closed only while Done is said, and that settles the receiver. */
  predicate ClosedOk(r: R.State) { r.out.closed ==> HasDone(r.link.sent) && r.outcome != Running }

  predicate PlaceOk(c: S.Config, s: S.State) {
    (s.pc.AwaitResume? ==> c.manifest.transferId != []) && (s.pc.WaitDone? ==> s.completeSent)
  }

  lemma DoneKept(a: seq<Msg>, b: seq<Msg>)
    requires a <= b
    ensures HasDone(a) ==> HasDone(b)
  {
    Prefixed(a, b);
  }

  lemma CompleteCloses(r: R.State, digest: SetDigest, fault: R.Fault)
    requires R.Sane(r) && r.outcome == Running && !r.out.closed
    ensures var t := R.Settle(R.OnComplete(r, digest, fault)); t.out.closed ==> HasDone(t.link.sent) && t.outcome != Running
  {
    hide R.AllShaped, CompletionDigest;
    var t := R.Settle(R.OnComplete(r, digest, fault));
    if t.out.closed { assert t.link.sent[|r.link.sent|].Done?; }
  }

  lemma HandleCloses(r: R.State, frame: Frame, fault: R.Fault)
    requires R.Sane(r) && ClosedOk(r)
    ensures ClosedOk(R.Handle(r, frame, fault))
  {
    var t := R.Handle(r, frame, fault);
    hide R.AllShaped, R.ApplyManifest, R.OnBlockData, R.OnBlockHash, R.OnComplete, HasDone;
    if r.outcome != Running {
      DoneKept(r.link.sent, t.link.sent);
    } else if frame.Sealed? && r.link.recvCounter <= frame.counter {
      var a := R.Accept(r, frame.counter);
      if frame.msg.Complete? { CompleteCloses(a, frame.msg.digest, fault); } else { StaysOpenAny(a, frame.msg, fault); }
    }
  }

  lemma StaysOpenAny(r: R.State, m: Msg, fault: R.Fault)
    requires R.Sane(r) && !r.out.closed && !m.Complete?
    ensures !R.Dispatch(r, m, fault).st.out.closed
  {
    hide SafePath.Validate, R.AllShaped;
  }

  lemma SenderPlaceOk(c: S.Config, s: S.State, e: S.Event)
    requires W.Inv(c, s) && PlaceOk(c, s)
    ensures S.ConfigOk(c) && PlaceOk(c, S.Apply(c, s, e))
  {
    assert S.ConfigOk(c) by { Engine.SenderConfig(c, s); }
    hide W.Inv, S.LoopStep, S.AdmitBlock, S.Resend, S.SendStep, S.Enumerates, CompletionDigest, S.ConfigOk,
      S.Dispatch, Committed;
    if e.Advance? { RunPlaceOk(c, s, e.sendOk); }
  }

  lemma RunPlaceOk(c: S.Config, s: S.State, sendOk: bool)
    requires S.ConfigOk(c) && PlaceOk(c, s)
    ensures PlaceOk(c, S.RunStep(c, s, sendOk))
  {
    hide S.Pieces, S.Piece, Committed, CompletionDigest, S.Fragment, S.ConfigOk;
  }

  lemma ApplyExtras(x: Setup, y: System, e: Event)
    requires SystemInv(x, y) && ClosedOk(y.r) && PlaceOk(x.c, y.s)
    ensures SetupOk(x) && R.WellFormed(y.r)
    ensures ClosedOk(Apply(x, y, e).r) && PlaceOk(x.c, Apply(x, y, e).s)
  {
    assert SetupOk(x) && R.WellFormed(y.r) && W.Inv(x.c, y.s) && S.ConfigOk(x.c) && R.Sane(y.r) by { Parts(x, y); }
    hide SystemInv, SetupOk, R.WellFormed, W.Inv, S.Apply, R.Handle, S.Handle, HasDone, S.ConfigOk, R.Sane;
    match e {
      case SenderStep(e) => if !e.Inbound? { SenderPlaceOk(x.c, y.s, e); }
      case ToReceiver(i, fault) => if i < |y.s.link.sent| { HandleCloses(y.r, FrameOf(y.s.link, i), fault); }
      case ForgedToReceiver(claimed, fault) => HandleCloses(y.r, Forged(claimed), fault);
      case ToSender(j) => if j < |y.r.link.sent| { HandlePlaceOk(x.c, y.s, FrameOf(y.r.link, j)); }
      case ForgedToSender(claimed) => HandlePlaceOk(x.c, y.s, Forged(claimed));
      case _ => DoneKept(y.r.link.sent, Apply(x, y, e).r.link.sent);
    }
  }

  lemma HandlePlaceOk(c: S.Config, s: S.State, frame: Frame)
    requires PlaceOk(c, s)
    ensures PlaceOk(c, S.Handle(c, s, frame))
  {
    hide S.Dispatch;
  }

  lemma Parts(x: Setup, y: System)
    requires SystemInv(x, y)
    ensures SetupOk(x) && R.WellFormed(y.r) && W.Inv(x.c, y.s) && S.ConfigOk(x.c) && R.Sane(y.r)
  {
    hide TermsOk, SinksOk, SentOk, LogOk, AsmOk, Live, Linked, Agreed, AllGenuine, SafePath.Validate, HostHonest;
    hide W.QueueOk, W.PlanOk, W.Position;
  }

  lemma {:induction false} RunExtras(x: Setup, es: seq<Event>)
    requires SetupOk(x)
    ensures ClosedOk(Exec(x, es).r) && PlaceOk(x.c, Exec(x, es).s)
    decreases |es|
  {
    hide SetupOk, SystemInv, Apply, ClosedOk, PlaceOk;
    if es == [] {
      NothingYet(x);
    } else {
      RunExtras(x, es[..|es| - 1]);
      ReachableKeepsInv(x, es[..|es| - 1]);
      ApplyExtras(x, Exec(x, es[..|es| - 1]), es[|es| - 1]);
    }
  }

  lemma NothingYet(x: Setup)
    requires SetupOk(x)
    ensures ClosedOk(Init(x).r) && PlaceOk(x.c, Init(x).s)
  {
    hide SetupOk;
  }

  /** No side has taken a frame its peer has not sealed. */
  predicate CountersOk(y: System) {
    y.r.link.recvCounter <= |y.s.link.sent| && y.s.link.recvCounter <= |y.r.link.sent|
  }

  lemma ApplyCounters(x: Setup, y: System, e: Event)
    requires SystemInv(x, y) && CountersOk(y)
    ensures SetupOk(x) && R.WellFormed(y.r) && CountersOk(Apply(x, y, e))
  {
    FramesNumbered(x, y);
    assert SetupOk(x) && R.WellFormed(y.r) && W.Inv(x.c, y.s) && S.ConfigOk(x.c) && R.Sane(y.r) by { Parts(x, y); }
    if e.SenderStep? && !e.e.Inbound? { SenderSteady(x.c, y.s, e.e); }
    hide SystemInv, SetupOk, R.WellFormed, W.Inv, S.Apply, R.Handle, S.Handle, S.ConfigOk, R.Sane;
  }

  lemma {:induction false} CountersBehind(x: Setup, es: seq<Event>)
    requires SetupOk(x)
    ensures CountersOk(Exec(x, es))
    decreases |es|
  {
    hide SetupOk, SystemInv, Apply;
    if es != [] {
      CountersBehind(x, es[..|es| - 1]);
      ReachableKeepsInv(x, es[..|es| - 1]);
      ApplyCounters(x, Exec(x, es[..|es| - 1]), es[|es| - 1]);
    }
  }

  // ---------------------------------------------------------------- a fresh transfer

  function Start(x: Setup): Lane { Lane(Init(x), false, 0, 0) }

  lemma StartOk(x: Setup)
    requires SetupOk(x) && Stable(x) && Fits(x) && Answered(x) && Roomy(x)
    ensures LaneOk(x, Start(x))
  {
    InitCutover(x);
    hide CutoverInv, SetupOk, Stable, Fits, Answered, Roomy;
    assert SceneOf(Start(x)) == Scene(S.Init(), R.Init(x.host, x.stored), [], []);
  }

  /** A fresh transfer over a path that loses nothing completes under every fair schedule. */
  lemma FreshTransferCompletes(x: Setup, plan: Schedule)
    requires SetupOk(x) && Stable(x) && Fits(x) && Answered(x) && Roomy(x) && S.ConfigOk(x.c)
    requires Fair(x, Start(x), plan)
    ensures exists n: nat :: BothDone(At(x, Start(x), plan, n))
  {
    hide Stable, Fits, Answered, Roomy, SetupOk, LaneOk, Fair, BothDone, At, S.ConfigOk;
    StartOk(x);
    EveryFairScheduleFinishes(x, Start(x), plan);
  }

  // ---------------------------------------------------------------- after a path change

  /** The path changes on both sides and everything that was on its way is lost. */
  function Cut(x: Setup, es: seq<Event>, order: seq<int>): (z: Lane)
    requires SetupOk(x)
    ensures R.WellFormed(z.y.r)
  {
    var y := Exec(x, es);
    Lane(Apply(x, Apply(x, y, ReceiverPathChange), SenderStep(S.PathChange(order))), true, |y.s.link.sent|, |y.r.link.sent|)
  }

  /** Both sides are still at it, the sender is not paused, and `order` lists the window. */
  predicate Going(y: System, order: seq<int>) {
    && y.s.outcome == Running && !y.s.paused && (y.r.outcome == Running || y.r.outcome == Succeeded)
    && S.Enumerates(order, y.s.win.inflight.Keys - y.s.win.queued)
  }

  lemma CutInv(x: Setup, es: seq<Event>, order: seq<int>)
    requires SetupOk(x) && Stable(x) && Fits(x) && Answered(x) && InOrder(x, es)
    ensures CutoverInv(x, Cut(x, es, order).y, true)
  {
    hide SetupOk, Stable, Fits, Answered, InOrder, CutoverInv, Apply, Expected, Missed, Exec, Gap;
    var y := Exec(x, es);
    OrderedRunKeeps(x, es);
    CutoverFacts(x, y, Gap(x, es));
    OwnEvent(y, Gap(x, es), ReceiverPathChange);
    EventKeeps(x, y, Gap(x, es), ReceiverPathChange);
    var y1 := Apply(x, y, ReceiverPathChange);
    CutoverFacts(x, y1, true);
    OwnEvent(y1, true, SenderStep(S.PathChange(order)));
    EventKeeps(x, y1, true, SenderStep(S.PathChange(order)));
  }

  lemma OwnEvent(y: System, gap: bool, e: Event)
    requires R.WellFormed(y.r) && (e.ReceiverPathChange? || e.SenderStep?)
    ensures R.Sane(y.r) && Expected(y, gap, e) && !Missed(y, e)
  {}

  /** What is on its way after the change. */
  function Repeats(c: S.Config, s: S.State): seq<Msg> {
    (if s.manifestSent && s.tally.acknowledged == 0 then [ManifestMsg(c.manifest)] else [])
    + (if s.completeSent then [Complete(CompletionDigest(c.manifest.files))] else [])
  }

  lemma CutScene(x: Setup, es: seq<Event>, order: seq<int>)
    requires SetupOk(x) && S.ConfigOk(x.c) && Going(Exec(x, es), order)
    ensures var y, z := Exec(x, es), Cut(x, es, order);
            var t := S.TransportChanged(x.c, y.s, order);
            && SceneOf(z) == Scene(t, R.TransportChanged(y.r), Repeats(x.c, y.s), [])
            && t.win == S.Window(S.ResetRetries(y.s.win.inflight), y.s.win.queue + order,
                                 y.s.win.inflight.Keys + y.s.win.queued)
            && t == y.s.(win := t.win, link := t.link) && t.link.sent == y.s.link.sent + Repeats(x.c, y.s)
            && t.link.recvCounter == y.s.link.recvCounter
  {
    hide SetupOk, Exec, S.Enumerates, S.ConfigOk, CompletionDigest;
    var y := Exec(x, es);
    var t := S.TransportChanged(x.c, y.s, order);
    assert t.link.sent == y.s.link.sent + Repeats(x.c, y.s);
    assert Tail(t.link.sent, |y.s.link.sent|) == Repeats(x.c, y.s);
    assert Tail(y.r.link.sent, |y.r.link.sent|) == [];
  }

  // ---------------------------------------------------------------- nothing counted before the manifest is known

  lemma {:induction false} BehindNonNegative(c: S.Config, p: S.Plan, f: nat)
    requires S.ConfigOk(c) && f <= |c.manifest.files| && p.have == map[]
    ensures W.Behind(c, p, f) >= 0
  {
    if f > 0 {
      BehindNonNegative(c, p, f - 1);
      CommittedIsPos(c.manifest.files[f - 1], 0);
    }
  }

  lemma {:induction false} EmptySinks(x: Setup, o: R.Output, n: nat)
    requires forall f :: 0 <= f < n ==> R.Stored(o, f) == []
    ensures SinkTotal(x, o, n) == 0
  {
    if n > 0 { EmptySinks(x, o, n - 1); }
  }

  lemma NothingStored(x: Setup, r: R.State, f: nat)
    requires ReceiverSafety.Inv(x, r) && r.terms.manifest == None && x.c.manifest.transferId == [] && f < Count(x)
    ensures R.Stored(r.out, f) == []
  {
    hide SentOk, LogOk, AsmOk, Live, TermsOk, R.SeedOk, FromStream, PiecesFit;
    assert SinkOk(x, r.prog, R.Stored(r.out, f), f) && HostHonest(x, f);
  }

  lemma UnknownIsUncounted(x: Setup, y: System)
    requires SystemInv(x, y) && y.r.terms.manifest == None && !y.s.pc.Returned?
    requires y.s.plan.applied == None
    ensures y.s.tally.acknowledged == 0
  {
    Facts(x, y);
    TallyFacts(x, y);
    AckedCovered(x, y);
    if !y.s.pc.Begin? && !y.s.pc.AwaitResume? {
      NoPlan(x, y);
      forall f | 0 <= f < Count(x) ensures R.Stored(y.r.out, f) == [] { NothingStored(x, y.r, f); }
      hide SystemInv, SinksOk, Linked, SetupOk;
      EmptySinks(x, y.r.out, Count(x));
      BehindNonNegative(x.c, y.s.plan, if y.s.pc.Activate? then y.s.pc.file
                                       else if y.s.pc.WaitDone? then Count(x) else y.s.tally.active);
      if W.InFile(y.s.pc) { FileAckedNonNegative(x.c, y.s); }
    }
  }

  lemma NoPlan(x: Setup, y: System)
    requires SystemInv(x, y) && !y.s.pc.Begin? && !y.s.pc.AwaitResume? && !y.s.pc.Returned? && y.s.plan.applied == None
    ensures x.c.manifest.transferId == [] && y.s.plan.have == map[]
  {
    hide SetupOk, ReceiverSafety.Inv, Linked, Agreed, AllGenuine, W.Position, W.QueueOk;
  }

  lemma FileAckedNonNegative(c: S.Config, s: S.State)
    requires S.ConfigOk(c) && W.Position(c, s) && W.InFile(s.pc)
    ensures s.tally.fileAcknowledged >= 0
  {
    hide W.WindowOk, W.PcOk, W.Behind;
    CommittedIsPos(c.manifest.files[s.tally.active], S.Have(s.plan, s.tally.active));
  }

  // ---------------------------------------------------------------- the scene after the change

  lemma RequeuedWindow(c: S.Config, s: S.State, order: seq<int>)
    requires W.Inv(c, s) && S.Enumerates(order, s.win.inflight.Keys - s.win.queued)
    ensures var t := S.Window(S.ResetRetries(s.win.inflight), s.win.queue + order, s.win.inflight.Keys + s.win.queued);
            && (forall b :: b in t.inflight ==> b in t.queue && t.inflight[b].retries == 0)
            && (forall b :: b in t.inflight <==> b in s.win.inflight)
  {
    W.RequeueKeepsQueue(s.win, order);
    hide W.PlanOk, W.Position, S.Enumerates;
  }

  /** Facts about a sender that is still going. */
  lemma GoingFacts(c: S.Config, s: S.State)
    requires W.Inv(c, s) && s.outcome == Running && PlaceOk(c, s)
    ensures !s.pc.Returned? && (s.completeSent ==> s.pc.WaitDone?) && (s.pc.WaitDone? ==> s.completeSent)
    ensures s.pc.AwaitResume? ==> s.manifestSent && s.tally.acknowledged == 0 && c.manifest.transferId != []
    ensures !s.pc.Begin? ==> s.manifestSent
    ensures s.pc.Begin? ==> !s.manifestSent && !s.completeSent
  {
    hide W.QueueOk, W.PlanOk, W.Behind, W.WindowOk, W.TallyOk, W.PcOk;
  }

  lemma CutAlive(x: Setup, es: seq<Event>, v: Scene)
    requires SetupOk(x) && Stable(x) && Fits(x) && Answered(x) && InOrder(x, es)
    requires var y := Exec(x, es); y.s.outcome == Running && !y.s.paused && (y.r.outcome == Running || y.r.outcome == Succeeded)
    requires var y := Exec(x, es); v.s == y.s.(win := v.s.win, link := v.s.link) && v.r == R.TransportChanged(y.r)
    ensures Alive(v) && (v.s.completeSent ==> v.s.pc.WaitDone?)
  {
    hide SetupOk, Stable, Fits, Answered, InOrder, Exec, CutoverInv;
    var y := Exec(x, es);
    OrderedRunKeeps(x, es);
    RunExtras(x, es);
    CutoverFacts(x, y, Gap(x, es));
    assert W.Inv(x.c, y.s) by { Parts(x, y); }
    GoingFacts(x.c, y.s);
    ClosedMeans(x, y, Gap(x, es));
  }

  /** A receiver that has closed its destination has heard Complete. */
  lemma ClosedMeans(x: Setup, y: System, gap: bool)
    requires CutoverInv(x, y, gap) && ClosedOk(y.r)
    ensures y.r.out.closed ==> y.s.completeSent
    ensures y.r.outcome == Succeeded ==> y.r.out.closed
  {
    hide Stable, Fits, Answered, HistoryOk, StreamOk, IntakeOk, Reached, W.Inv, Linked, Agreed, AllGenuine;
    hide SetupOk, TermsOk, SinksOk, SentOk, LogOk, AsmOk, Live;
    if y.r.out.closed {
      var i :| 0 <= i < |y.r.link.sent| && y.r.link.sent[i].Done?;
      assert FromReceiver(y.r.link.sent[i], ReachOf(y.s), y.r.terms.manifest.Some?);
    }
  }

  lemma CutComing(x: Setup, es: seq<Event>, v: Scene)
    requires SetupOk(x) && Stable(x) && Fits(x) && Answered(x) && InOrder(x, es)
    requires Exec(x, es).s.outcome == Running
    requires var y := Exec(x, es);
             && v.s == y.s.(win := v.s.win, link := v.s.link) && v.r == R.TransportChanged(y.r)
             && v.p == Repeats(x.c, y.s) && v.q == []
    ensures Clean(v) && ManifestFirst(v) && PlanComing(x.c, v) && DoneComing(v)
  {
    hide SetupOk, Stable, Fits, Answered, InOrder, Exec, CutoverInv, SystemInv, CompletionDigest;
    var y := Exec(x, es);
    OrderedRunKeeps(x, es);
    RunExtras(x, es);
    CutoverFacts(x, y, Gap(x, es));
    assert W.Inv(x.c, y.s) by { Parts(x, y); }
    GoingFacts(x.c, y.s);
    if y.r.terms.manifest == None {
      PlanMeansKnown(x, y, Gap(x, es));
      UnknownIsUncounted(x, y);
    }
    if y.s.manifestSent && y.s.tally.acknowledged == 0 { assert v.p[0].ManifestMsg?; }
    if y.s.completeSent { assert v.p[|v.p| - 1].Complete?; }
  }

  lemma PlanMeansKnown(x: Setup, y: System, gap: bool)
    requires CutoverInv(x, y, gap)
    ensures y.s.plan.applied.Some? ==> y.r.terms.manifest.Some?
  {}

  lemma CutGood(x: Setup, es: seq<Event>, order: seq<int>)
    requires SetupOk(x) && Stable(x) && Fits(x) && Answered(x) && InOrder(x, es) && Going(Exec(x, es), order)
    requires 3 <= x.c.maxRetries
    ensures Good(x, SceneOf(Cut(x, es, order)))
  {
    hide SetupOk, Stable, Fits, Answered, InOrder, Exec, CutoverInv, SystemInv, S.Enumerates, Alive, Clean,
      ManifestFirst, PlanComing, DoneComing;
    var y, v := Exec(x, es), SceneOf(Cut(x, es, order));
    assert S.ConfigOk(x.c) by { SetupConfig(x); }
    CutScene(x, es, order);
    CutAlive(x, es, v);
    CutComing(x, es, v);
    OrderedRunKeeps(x, es);
    CutoverFacts(x, y, Gap(x, es));
    assert W.Inv(x.c, y.s) by { Parts(x, y); }
    RequeuedWindow(x.c, y.s, order);
    hide W.Inv, S.ConfigOk, Cut, SceneOf;
    RequeuedGood(x, v);
  }

  /** With nothing else on its way, every block in flight is queued and has its resends. */
  lemma RequeuedGood(x: Setup, v: Scene)
    requires Alive(v) && Clean(v) && ManifestFirst(v) && PlanComing(x.c, v) && DoneComing(v) && 3 <= x.c.maxRetries
    requires v.q == [] && v.r.intake.seenAhead == {} && (forall i :: 0 <= i < |v.p| ==> !v.p[i].BlockHash?)
    requires forall b :: b in v.s.win.inflight ==> b in v.s.win.queue && v.s.win.inflight[b].retries == 0
    ensures Good(x, v)
  {
    hide Alive, Clean, ManifestFirst, PlanComing, DoneComing, InPipe, Track, IsCommitted;
  }

  lemma CutOk(x: Setup, es: seq<Event>, order: seq<int>)
    requires SetupOk(x) && Stable(x) && Fits(x) && Answered(x) && Roomy(x) && InOrder(x, es)
    requires Going(Exec(x, es), order)
    requires 3 <= x.c.maxRetries
    ensures LaneOk(x, Cut(x, es, order))
  {
    hide SetupOk, Stable, Fits, Answered, InOrder, Exec, CutoverInv, SystemInv, S.Enumerates, Good, Roomy;
    CutInv(x, es, order);
    CutGood(x, es, order);
    CutPlaced(x, es, order);
  }

  lemma CutPlaced(x: Setup, es: seq<Event>, order: seq<int>)
    requires SetupOk(x) && Stable(x) && Fits(x) && Answered(x) && InOrder(x, es) && Going(Exec(x, es), order)
    ensures Placed(Cut(x, es, order))
  {
    hide SetupOk, Stable, Fits, Answered, InOrder, Exec, CutoverInv, SystemInv, S.Enumerates;
    var y := Exec(x, es);
    assert S.ConfigOk(x.c) by { SetupConfig(x); }
    CutScene(x, es, order);
    CountersBehind(x, es);
  }

  // ---------------------------------------------------------------- main result

  /** After any ordered run in which both sides are still going, the path changes and whatever was
      on its way is lost: if the new path loses nothing, every fair schedule of the sender's steps
      and of frames and replies arriving in order ends with Run returning without an error and
      the receiver having verified every file and closed its destination. */
  lemma TransferCompletesAfterCut(x: Setup, es: seq<Event>, order: seq<int>, plan: Schedule)
    requires SetupOk(x) && Stable(x) && Fits(x) && Answered(x) && Roomy(x) && S.ConfigOk(x.c) && 3 <= x.c.maxRetries
    requires InOrder(x, es) && Going(Exec(x, es), order) && Fair(x, Cut(x, es, order), plan)
    ensures exists n: nat :: BothDone(At(x, Cut(x, es, order), plan, n))
  {
    hide Stable, Fits, Answered, Roomy, SetupOk, LaneOk, Fair, BothDone, At, S.ConfigOk, Going, InOrder, Cut;
    CutOk(x, es, order);
    EveryFairScheduleFinishes(x, Cut(x, es, order), plan);
  }
}
