/** Sender and receiver together over a network that may drop, duplicate, reorder and delay
    authentic frames, inject forged ones, and change paths at any time. */
module Engine {
  import opened Wire
  import opened Geometry
  import opened ReceiverSafety
  import S = SenderModel
  import W = SenderWindow
  import R = ReceiverModel

  datatype System = System(s: S.State, r: R.State)

  /** One thing that happens. A delivery names any frame the peer has ever sealed. */
  datatype Event =
    | SenderStep(e: S.Event)
    | ToReceiver(i: nat, fault: R.Fault)
    | ForgedToReceiver(claimed: nat, fault: R.Fault)
    | ReceiverPathChange
    | ReceiverPause(paused: bool)
    | ReceiverCancel
    | ToSender(j: nat)
    | ForgedToSender(claimed: nat)

  function Init(x: Setup): System {
    System(S.Init(), R.Init(x.host, x.stored))
  }

  function Apply(x: Setup, y: System, e: Event): (z: System)
    requires SetupOk(x) && R.WellFormed(y.r)
    ensures R.WellFormed(z.r)
  {
    match e
    case SenderStep(e) => if e.Inbound? then y else y.(s := S.Apply(x.c, y.s, e))
    case ToReceiver(i, fault) =>
      if i < |y.s.link.sent| then
        R.HandleWellFormed(y.r, FrameOf(y.s.link, i), fault);
        y.(r := R.Handle(y.r, FrameOf(y.s.link, i), fault))
      else y
    case ForgedToReceiver(claimed, fault) =>
      R.HandleWellFormed(y.r, Forged(claimed), fault);
      y.(r := R.Handle(y.r, Forged(claimed), fault))
    case ReceiverPathChange => y.(r := R.TransportChanged(y.r))
    case ReceiverPause(paused) => y.(r := R.SetPaused(y.r, paused))
    case ReceiverCancel => y.(r := R.CancelLocally(y.r))
    case ToSender(j) =>
      if j < |y.r.link.sent| then y.(s := S.Handle(x.c, y.s, FrameOf(y.r.link, j))) else y
    case ForgedToSender(claimed) => y.(s := S.Handle(x.c, y.s, Forged(claimed)))
  }

  function Exec(x: Setup, es: seq<Event>): (z: System)
    requires SetupOk(x)
    ensures R.WellFormed(z.r)
  {
    if es == [] then Init(x) else Apply(x, Exec(x, es[..|es| - 1]), es[|es| - 1])
  }

  // ---------------------------------------------------------------- invariant

  predicate AllGenuine(c: S.Config, sent: seq<Msg>) {
    forall i :: 0 <= i < |sent| ==> Genuine(c, sent[i])
  }

  /** Every piece of the first `n` files that was not held back by the plan is committed. */
  predicate DoneUpTo(x: Setup, s: S.State, p: R.Progress, n: int) {
    forall g, b :: 0 <= g < n && S.ValidFile(x.c, g) && S.Have(s.plan, g) <= b && 0 <= b < S.Pieces(x.c, g) ==>
      IsCommitted(x, p, g, b)
  }

  /** A piece of the active file that has left the window was committed first. */
  predicate DoneInFile(x: Setup, s: S.State, p: R.Progress, next: nat) {
    forall b :: S.Have(s.plan, s.tally.active) <= b && 0 <= b < next && b !in s.win.inflight ==>
      IsCommitted(x, p, s.tally.active, b)
  }

  predicate Linked(x: Setup, s: S.State, p: R.Progress) {
    && (s.pc.Activate? ==> DoneUpTo(x, s, p, s.pc.file))
    && (s.pc.WaitDone? ==> DoneUpTo(x, s, p, Count(x)))
    && (W.InFile(s.pc) ==> DoneUpTo(x, s, p, s.tally.active) && DoneInFile(x, s, p, s.pc.next))
  }

  predicate Agreed(x: Setup, s: S.State, r: R.State) {
    && (s.plan.applied.Some? ==>
          x.c.manifest.transferId != [] && s.plan.applied.value == Advert(x) && r.terms.advertised.Some?)
    && (s.outcome == Succeeded ==> r.out.closed)
  }

  predicate SystemInv(x: Setup, y: System) {
    && SetupOk(x)
    && W.Inv(x.c, y.s)
    && ReceiverSafety.Inv(x, y.r)
    && AllGenuine(x.c, y.s.link.sent)
    && Linked(x, y.s, y.r.prog)
    && Agreed(x, y.s, y.r)
    && Numbered(y.s.link) && Numbered(y.r.link)
  }

  // ---------------------------------------------------------------- sender steps

  lemma SendStepGenuine(c: S.Config, s: S.State, sendOk: bool)
    requires W.Inv(c, s) && AllGenuine(c, s.link.sent) && s.pc.Sending?
    ensures AllGenuine(c, S.SendStep(c, s, sendOk).link.sent)
  {
    hide S.Piece, S.Pieces, W.TallyOk, W.QueueOk, W.PlanOk, W.WindowOk;
  }

  lemma SenderConfig(c: S.Config, s: S.State)
    requires W.Inv(c, s)
    ensures S.ConfigOk(c)
  {}

  lemma RunGenuine(c: S.Config, s: S.State, sendOk: bool)
    requires W.Inv(c, s) && AllGenuine(c, s.link.sent)
    ensures AllGenuine(c, S.RunStep(c, s, sendOk).link.sent)
  {
    hide S.SendStep, W.Inv, Committed, S.Piece, S.Pieces, S.ValidFile, CompletionDigest;
    SenderConfig(c, s);
    if s.pc.Sending? { SendStepGenuine(c, s, sendOk); }
  }

  lemma SenderGenuine(c: S.Config, s: S.State, e: S.Event)
    requires W.Inv(c, s) && AllGenuine(c, s.link.sent)
    ensures AllGenuine(c, S.Apply(c, s, e).link.sent)
  {
    if e.Advance? { RunGenuine(c, s, e.sendOk); }
    hide S.RunStep, W.Inv, S.Handle, S.Enumerates, S.QueueRetry;
  }

  /** What a step of the sender may do to the committed-before-acked relation: nothing enters
      the past except through the window, and nothing leaves the window but by an ack. */
  lemma LoopLinked(x: Setup, s: S.State, p: R.Progress)
    requires SetupOk(x) && W.Inv(x.c, s) && Linked(x, s, p) && s.pc.Loop?
    ensures Linked(x, S.LoopStep(x.c, s, s.pc.next), p)
  {
    hide IsCommitted, Blocks, W.QueueOk, W.PlanOk, W.TallyOk;
    var t := S.LoopStep(x.c, s, s.pc.next);
    assert t.plan == s.plan && t.tally == s.tally && t.win.inflight == s.win.inflight;
    if t.pc.Activate? {
      forall g, b | 0 <= g < t.pc.file && S.ValidFile(x.c, g) && S.Have(t.plan, g) <= b && 0 <= b < S.Pieces(x.c, g)
        ensures IsCommitted(x, p, g, b)
      {
        if g < s.tally.active {
          assert DoneUpTo(x, s, p, s.tally.active);
        } else {
          assert DoneInFile(x, s, p, s.pc.next);
        }
      }
    }
  }

  lemma AdmitLinked(x: Setup, s: S.State, p: R.Progress)
    requires SetupOk(x) && W.Inv(x.c, s) && Linked(x, s, p) && s.pc.Admitted?
    ensures Linked(x, S.AdmitBlock(x.c, s, s.pc.next), p)
  {
    hide IsCommitted, S.Piece, S.Pieces, W.QueueOk, W.PlanOk, W.TallyOk, SetupOk;
  }

  /** The relation depends only on the plan, the tally, the read position and the window's keys. */
  lemma SameLinked(x: Setup, s: S.State, t: S.State, p: R.Progress)
    requires Linked(x, s, p)
    requires t.plan == s.plan && t.tally == s.tally
    requires t.pc == s.pc || t.pc.Returned? || (W.InFile(s.pc) && W.InFile(t.pc) && t.pc.next == s.pc.next)
    requires forall b :: b in s.win.inflight <==> b in t.win.inflight
    ensures Linked(x, t, p)
  {
    hide IsCommitted, S.Pieces;
  }

  lemma ActivateLinked(x: Setup, s: S.State, p: R.Progress, sendOk: bool)
    requires SetupOk(x) && W.Inv(x.c, s) && Linked(x, s, p) && s.pc.Activate?
    ensures Linked(x, S.RunStep(x.c, s, sendOk), p)
  {
    assert s.pc.file <= Count(x);
    hide IsCommitted, S.Pieces, Committed, W.Inv, SetupOk;
  }

  lemma RunLinked(x: Setup, s: S.State, p: R.Progress, sendOk: bool)
    requires SetupOk(x) && W.Inv(x.c, s) && Linked(x, s, p)
    ensures Linked(x, S.RunStep(x.c, s, sendOk), p)
  {
    assert W.Position(x.c, s) && S.ConfigOk(x.c);
    hide W.Inv, Linked, SetupOk, IsCommitted, S.Pieces, S.Piece, Committed;
    var t := S.RunStep(x.c, s, sendOk);
    match s.pc {
      case Loop(_) => LoopLinked(x, s, p);
      case Admitted(_) => AdmitLinked(x, s, p);
      case Activate(_) => ActivateLinked(x, s, p, sendOk);
      case Retrying(_, _) => SameLinked(x, s, t, p);
      case Sending(_, _, _, _) => SameLinked(x, s, t, p);
      case WaitDone => SameLinked(x, s, t, p);
      case _ => StartLinked(x, t, p);
    }
  }

  lemma StartLinked(x: Setup, t: S.State, p: R.Progress)
    requires t.pc.Begin? || t.pc.AwaitResume? || t.pc == S.Activate(0) || t.pc.Returned?
    ensures Linked(x, t, p)
  {}

  lemma PathLinked(x: Setup, s: S.State, p: R.Progress, order: seq<int>)
    requires Linked(x, s, p)
    ensures Linked(x, S.TransportChanged(x.c, s, order), p)
  {
    hide Linked, S.Enumerates;
    assert forall b :: b in S.ResetRetries(s.win.inflight) <==> b in s.win.inflight;
    SameLinked(x, s, S.TransportChanged(x.c, s, order), p);
  }

  lemma SenderLinked(x: Setup, s: S.State, p: R.Progress, e: S.Event)
    requires SetupOk(x) && W.Inv(x.c, s) && Linked(x, s, p) && !e.Inbound?
    ensures Linked(x, S.Apply(x.c, s, e), p)
  {
    assert S.ConfigOk(x.c);
    hide Linked, W.Inv, SetupOk, S.RunStep, S.TransportChanged, S.ConfigOk;
    match e {
      case Advance(sendOk) => RunLinked(x, s, p, sendOk);
      case PathChange(order) => PathLinked(x, s, p, order);
      case Inbound(_) =>
      case _ => SameLinked(x, s, S.Apply(x.c, s, e), p);
    }
  }

  lemma SenderSteady(c: S.Config, s: S.State, e: S.Event)
    requires S.ConfigOk(c) && !e.Inbound?
    ensures S.Steady(s, S.Apply(c, s, e))
  {
    hide S.RunStep, S.ConfigOk, S.Enumerates;
  }

  // ---------------------------------------------------------------- deliveries

  /** A receiver step keeps the relation because progress only moves forward. */
  lemma ProgressLinked(x: Setup, s: S.State, p: R.Progress, q: R.Progress)
    requires Linked(x, s, p) && R.Advances(p, q)
    ensures Linked(x, s, q)
  {
    hide S.Pieces;
    assert forall f, b :: IsCommitted(x, p, f, b) ==> IsCommitted(x, q, f, b);
    hide IsCommitted;
  }

  lemma AckLinked(x: Setup, s: S.State, p: R.Progress, file: int, block: int)
    requires Linked(x, s, p) && IsCommitted(x, p, file, block) && s.outcome == Running
    ensures Linked(x, S.OnAck(s, file, block), p)
  {
    hide IsCommitted, S.Pieces;
  }

  /** A mark the sender accepts is the one the receiver advertised; before that no file is
      active, so the relation is untouched. */
  lemma ResumeLinked(x: Setup, s: S.State, p: R.Progress, m: ResumeState)
    requires W.Inv(x.c, s) && Linked(x, s, p) && s.outcome == Running
    ensures Linked(x, S.OnResumeState(x.c, s, m), p)
  {
    assert S.BuildPlan(x.c, s, m).Some? && s.plan.applied == None ==> s.pc.AwaitResume? || s.pc.Begin?;
    hide IsCommitted, S.Pieces, W.Inv, S.ScanMarks;
  }

  lemma HandleLinked(x: Setup, y: System, frame: Frame)
    requires SystemInv(x, y) && (frame.Sealed? ==> AckOk(x, y.r.prog, y.r.out, frame.msg))
    ensures Linked(x, S.Handle(x.c, y.s, frame), y.r.prog)
  {
    var s, p := y.s, y.r.prog;
    hide SetupOk, W.Inv, ReceiverSafety.Inv, AllGenuine, Linked, S.Dispatch;
    if s.outcome == Running && frame.Sealed? && s.link.recvCounter <= frame.counter {
      var s1 := S.Accept(s, frame.counter);
      SameLinked(x, s, s1, p);
      match frame.msg {
        case Ack(file, block) => AckDispatched(x, s1, p, file, block);
        case ResumeMsg(m) => W.FrameKeepsInv(x.c, s, s1); ResumeDispatched(x, s1, p, m);
        case _ => SameLinked(x, s1, S.Dispatch(x.c, s1, frame.msg), p);
      }
    } else {
      SameLinked(x, s, S.Handle(x.c, s, frame), p);
    }
  }

  lemma AckDispatched(x: Setup, s: S.State, p: R.Progress, file: int, block: int)
    requires Linked(x, s, p) && IsCommitted(x, p, file, block) && s.outcome == Running
    ensures Linked(x, S.Dispatch(x.c, s, Ack(file, block)), p)
  {
    hide Linked, S.OnAck;
    AckLinked(x, s, p, file, block);
  }

  lemma ResumeDispatched(x: Setup, s: S.State, p: R.Progress, m: ResumeState)
    requires W.Inv(x.c, s) && Linked(x, s, p) && s.outcome == Running
    ensures Linked(x, S.Dispatch(x.c, s, ResumeMsg(m)), p)
  {
    hide Linked, S.OnResumeState, W.Inv;
    ResumeLinked(x, s, p, m);
  }

  lemma HandleAgreed(x: Setup, s: S.State, r: R.State, frame: Frame)
    requires Agreed(x, s, r) && (frame.Sealed? ==> AckOk(x, r.prog, r.out, frame.msg))
    requires frame.Sealed? && frame.msg.ResumeMsg? ==> r.terms.advertised.Some?
    ensures Agreed(x, S.Handle(x.c, s, frame), r)
  {
    hide Advert, IsCommitted, S.ScanMarks, S.OnAck, S.OnNack;
  }

  lemma ToSenderKeepsInv(x: Setup, y: System, frame: Frame)
    requires SystemInv(x, y) && (frame.Sealed? ==> AckOk(x, y.r.prog, y.r.out, frame.msg))
    requires frame.Sealed? && frame.msg.ResumeMsg? ==> y.r.terms.advertised.Some?
    ensures SystemInv(x, y.(s := S.Handle(x.c, y.s, frame)))
  {
    W.HandleKeepsInv(x.c, y.s, frame);
    HandleLinked(x, y, frame);
    HandleAgreed(x, y.s, y.r, frame);
    hide SetupOk, W.Inv, ReceiverSafety.Inv, AllGenuine, Linked, Agreed, S.Handle, AckOk;
  }

  lemma ToReceiverKeepsInv(x: Setup, y: System, frame: Frame, fault: R.Fault)
    requires SystemInv(x, y) && (frame.Sealed? ==> Genuine(x.c, frame.msg))
    ensures R.Sane(y.r) && SystemInv(x, y.(r := R.Handle(y.r, frame, fault)))
  {
    assert R.Sane(y.r) && (y.r.terms.manifest == None ==> !y.r.prog.fileOpen);
    HandleSound(x, y.r, frame, fault);
    hide SetupOk, W.Inv, ReceiverSafety.Inv, AllGenuine, Linked, R.Handle;
    ProgressLinked(x, y.s, y.r.prog, R.Handle(y.r, frame, fault).prog);
  }

  lemma LocalReceiverSound(x: Setup, r: R.State, e: Event)
    requires ReceiverSafety.Inv(x, r)
    ensures ReceiverSafety.Inv(x, R.TransportChanged(r))
    ensures e.ReceiverPause? ==> ReceiverSafety.Inv(x, R.SetPaused(r, e.paused))
    ensures ReceiverSafety.Inv(x, R.CancelLocally(r))
  {
    InvBase(x, r);
    BaseAsm(x, r);
    assert r.outcome == Succeeded ==> r.out.closed;
    assert AsmOk(x, None);
    hide ReceiverSafety.Inv, Base, AsmOk;
    FrameKeepsBase(x, r, R.TransportChanged(r));
    if r.outcome == Running {
      PushKeepsBase(x, r, R.Push(r, ControlMsg(Cancel)), ControlMsg(Cancel));
      FrameKeepsBase(x, R.Push(r, ControlMsg(Cancel)), R.CancelLocally(r));
      if e.ReceiverPause? && r.paused != e.paused {
        PushKeepsBase(x, r, R.SetPaused(r, e.paused), ControlMsg(if e.paused then Pause else Resume));
      }
    }
  }

  lemma LocalReceiverKeepsInv(x: Setup, y: System, e: Event)
    requires SystemInv(x, y) && (e.ReceiverPathChange? || e.ReceiverPause? || e.ReceiverCancel?)
    ensures SystemInv(x, Apply(x, y, e))
  {
    LocalReceiverSound(x, y.r, e);
    hide SetupOk, W.Inv, ReceiverSafety.Inv, AllGenuine, Linked;
  }

  lemma ApplyKeepsInv(x: Setup, y: System, e: Event)
    requires SystemInv(x, y)
    ensures SystemInv(x, Apply(x, y, e))
  {
    assert SetupOk(x) && W.Inv(x.c, y.s) && AllGenuine(x.c, y.s.link.sent) && S.ConfigOk(x.c);
    assert SentOk(x, y.r.prog, y.r.out, y.r.link.sent) && Recorded(y.r);
    hide SetupOk, W.Inv, ReceiverSafety.Inv, Linked, Genuine, AckOk, S.ConfigOk;
    hide R.Handle, S.Handle, S.Apply, R.Sane, R.TransportChanged, R.SetPaused, R.CancelLocally;
    match e {
      case SenderStep(e) =>
        if !e.Inbound? {
          W.ApplyKeepsInv(x.c, y.s, e);
          SenderGenuine(x.c, y.s, e);
          SenderLinked(x, y.s, y.r.prog, e);
          SenderSteady(x.c, y.s, e);
        }
      case ToReceiver(i, fault) =>
        if i < |y.s.link.sent| { ToReceiverKeepsInv(x, y, FrameOf(y.s.link, i), fault); }
      case ForgedToReceiver(claimed, fault) => ToReceiverKeepsInv(x, y, Forged(claimed), fault);
      case ToSender(j) =>
        if j < |y.r.link.sent| { ToSenderKeepsInv(x, y, FrameOf(y.r.link, j)); }
      case ForgedToSender(claimed) => ToSenderKeepsInv(x, y, Forged(claimed));
      case _ => LocalReceiverKeepsInv(x, y, e);
    }
  }

  lemma InitKeepsInv(x: Setup)
    requires SetupOk(x)
    ensures SystemInv(x, Init(x))
  {
    InitInv(x);
    hide ReceiverSafety.Inv;
  }

  lemma {:induction false} ReachableKeepsInv(x: Setup, es: seq<Event>)
    requires SetupOk(x)
    ensures SystemInv(x, Exec(x, es))
    decreases |es|
  {
    if es == [] {
      InitKeepsInv(x);
    } else {
      ReachableKeepsInv(x, es[..|es| - 1]);
      ApplyKeepsInv(x, Exec(x, es[..|es| - 1]), es[|es| - 1]);
    }
  }
}
