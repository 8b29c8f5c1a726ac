/** Pausing, canceling and failing reach the other side: what one engine seals when it stops or
    pauses does the same to the other, and a paused sender starts no block. */
module Control {
  import opened Wire
  import opened Geometry
  import opened ReceiverSafety
  import opened Engine
  import S = SenderModel
  import W = SenderWindow
  import R = ReceiverModel
  import SafePath

  function Newest(l: Link): Option<Msg> { if l.sent == [] then None else Some(l.sent[|l.sent| - 1]) }

  /** What a message of this kind makes of a sender that is going. */
  function Told(m: Msg): Outcome {
    match m
    case ControlMsg(Cancel) => Failed(Canceled)
    case Fail(reason) => Failed(reason)
    case _ => Running
  }

  // ---------------------------------------------------------------- stopping

  /** The receiver has just failed, and its newest message says so; or it was told to. */
  predicate Announces(before: Outcome, m: Option<Msg>, after: Outcome) {
    before == Running && after.Failed? ==>
      && m.Some?
      && (m.value == Fail(after.reason) || (m.value == ControlMsg(Cancel) && after.reason == Canceled))
  }

  /** In every run a receiver that fails - through a frame, a fault, or a local cancel - seals the
      reason last, unless it was the peer's own message that stopped it. */
  lemma ReceiverAnnounces(x: Setup, es: seq<Event>, e: Event)
    requires SetupOk(x)
    requires !(e.ToReceiver? && e.i < |Exec(x, es).s.link.sent| && Told(Exec(x, es).s.link.sent[e.i]).Failed?)
    ensures Announces(Exec(x, es).r.outcome, Newest(Apply(x, Exec(x, es), e).r.link), Apply(x, Exec(x, es), e).r.outcome)
  {
    hide SetupOk, Exec, S.Apply, S.Handle;
    var y := Exec(x, es);
    match e {
      case ToReceiver(i, fault) =>
        if i < |y.s.link.sent| { HandleAnnounces(y.r, FrameOf(y.s.link, i), fault); }
      case ForgedToReceiver(claimed, fault) => HandleAnnounces(y.r, Forged(claimed), fault);
      case _ =>
    }
  }

  lemma HandleAnnounces(r: R.State, frame: Frame, fault: R.Fault)
    requires R.Sane(r) && !(frame.Sealed? && Told(frame.msg).Failed?)
    ensures Announces(r.outcome, Newest(R.Handle(r, frame, fault).link), R.Handle(r, frame, fault).outcome)
  {
    hide R.AllShaped, R.Dispatch;
    if r.outcome == Running && frame.Sealed? && r.link.recvCounter <= frame.counter {
      OnlyToldFails(R.Accept(r, frame.counter), frame.msg, fault);
    }
  }

  /** A handler settles a receiver itself only by success or by the peer's word. */
  lemma OnlyToldFails(r: R.State, m: Msg, fault: R.Fault)
    requires R.Sane(r) && r.outcome == Running && !Told(m).Failed?
    ensures var s := R.Dispatch(r, m, fault); !s.st.outcome.Failed?
  {
    hide R.AllShaped, SafePath.Validate, R.AfterAck, CompletionDigest, R.SeedOk;
    if m.BlockHash? { HashGoesOn(r, m, fault); }
  }

  lemma HashGoesOn(r: R.State, m: Msg, fault: R.Fault)
    requires R.Sane(r) && r.outcome == Running && m.BlockHash?
    ensures R.OnBlockHash(r, m.hashFile, m.hashBlock, m.sha, fault).st.outcome == Running
  {
    hide R.AllShaped, R.OpenNextFile;
  }

  /** A running sender that hears of it ends the same way. */
  lemma SenderHears(x: Setup, es: seq<Event>, j: nat)
    requires SetupOk(x)
    requires var y := Exec(x, es);
             && y.s.outcome == Running && j < |y.r.link.sent| && y.s.link.recvCounter <= j && Told(y.r.link.sent[j]).Failed?
    ensures Apply(x, Exec(x, es), ToSender(j)).s.outcome == Told(Exec(x, es).r.link.sent[j])
  {
    hide SetupOk, Exec, SystemInv;
    ReachableKeepsInv(x, es);
    Numbers(x, Exec(x, es));
  }

  /** So does a running receiver. */
  lemma ReceiverHears(x: Setup, es: seq<Event>, i: nat, fault: R.Fault)
    requires SetupOk(x)
    requires var y := Exec(x, es);
             && y.r.outcome == Running && i < |y.s.link.sent| && y.r.link.recvCounter <= i && Told(y.s.link.sent[i]).Failed?
    ensures Apply(x, Exec(x, es), ToReceiver(i, fault)).r.outcome == Told(Exec(x, es).s.link.sent[i])
  {
    hide SetupOk, Exec, SystemInv, R.AllShaped;
    ReachableKeepsInv(x, es);
    Numbers(x, Exec(x, es));
  }

  lemma Numbers(x: Setup, y: System)
    requires SystemInv(x, y)
    ensures forall i :: 0 <= i < |y.s.link.sent| ==> FrameOf(y.s.link, i) == Sealed(i, y.s.link.sent[i])
    ensures forall j :: 0 <= j < |y.r.link.sent| ==> FrameOf(y.r.link, j) == Sealed(j, y.r.link.sent[j])
  {
    hide SetupOk, W.Inv, ReceiverSafety.Inv, AllGenuine, Linked, Agreed;
  }

  lemma RunAnnounces(c: S.Config, s: S.State, sendOk: bool)
    requires S.ConfigOk(c) && s.outcome == Running
    ensures var t := S.RunStep(c, s, sendOk);
            t.outcome == Failed(Canceled) || t.outcome == Failed(RetryExhausted) ==>
              Newest(t.link).Some? && Told(Newest(t.link).value) == t.outcome
  {
    assert 0 < c.frameSize;
    hide Committed, CompletionDigest, S.ConfigOk, S.LoopStep, S.AdmitBlock, S.Resend, S.SendStep, S.ActivateFile;
    LoopGoes(c, s);
    if s.pc.Activate? { ActivateGoes(c, s, s.pc.file); }
    if s.pc.Retrying? { ResendTells(c, s); }
    if s.pc.Sending? { SendGoes(c, s, sendOk); }
  }

  lemma LoopGoes(c: S.Config, s: S.State)
    requires s.outcome == Running
    ensures S.ValidFile(c, s.tally.active) && s.pc.Loop? ==> S.LoopStep(c, s, s.pc.next).outcome == Running
    ensures S.ValidFile(c, s.tally.active) && s.pc.Admitted? ==> S.AdmitBlock(c, s, s.pc.next).outcome == Running
  {
    hide S.Piece, S.Pieces, S.ValidFile;
  }

  lemma ActivateGoes(c: S.Config, s: S.State, f: nat)
    requires s.outcome == Running
    ensures S.ValidFile(c, f) ==> S.ActivateFile(c, s, f).outcome == Running
  {
    hide Committed;
  }

  lemma ResendTells(c: S.Config, s: S.State)
    requires s.outcome == Running && s.pc.Retrying?
    ensures var t := S.Resend(c, s, s.pc.block, s.pc.next);
            t.outcome == Running || (t.outcome == Failed(RetryExhausted) && Newest(t.link) == Some(Fail(RetryExhausted)))
  {}

  lemma SendGoes(c: S.Config, s: S.State, sendOk: bool)
    requires s.outcome == Running && s.pc.Sending? && 0 < c.frameSize
    ensures var t := S.SendStep(c, s, sendOk); t.outcome == Running || t.outcome == Failed(Other)
  {
    hide S.Fragment;
  }

  /** A sender says so when it is canceled and when its retries are used up. */
  lemma SenderAnnounces(c: S.Config, es: seq<S.Event>, e: S.Event)
    requires S.ConfigOk(c) && (e.CancelCall? || e.Advance?)
    ensures var s, t := S.Exec(c, es), S.Apply(c, S.Exec(c, es), e);
            s.outcome == Running && (t.outcome == Failed(Canceled) || t.outcome == Failed(RetryExhausted)) ==>
              Newest(t.link).Some? && Told(Newest(t.link).value) == t.outcome
  {
    hide S.Exec, S.RunStep, S.ConfigOk;
    var s := S.Exec(c, es);
    if e.Advance? && s.outcome == Running { RunAnnounces(c, s, e.sendOk); }
  }

  // ---------------------------------------------------------------- pausing

  /** A pause or resume of one side, once delivered, is a pause or resume of the sender. */
  lemma PauseReaches(x: Setup, es: seq<Event>, paused: bool, j: nat)
    requires SetupOk(x)
    requires var y := Exec(x, es);
             && y.s.outcome == Running && j < |y.r.link.sent| && y.s.link.recvCounter <= j
             && y.r.link.sent[j] == ControlMsg(if paused then Pause else Resume)
    ensures var t := Apply(x, Exec(x, es), ToSender(j)).s; t.paused == paused && t.outcome == Running
  {
    hide SetupOk, Exec, SystemInv;
    ReachableKeepsInv(x, es);
    Numbers(x, Exec(x, es));
  }

  /** The receiver seals it when it is asked to. */
  lemma PauseIsSealed(x: Setup, es: seq<Event>, paused: bool)
    requires SetupOk(x) && Exec(x, es).r.outcome == Running && Exec(x, es).r.paused != paused
    ensures var t := Apply(x, Exec(x, es), ReceiverPause(paused)).r;
            t.paused == paused && Newest(t.link) == Some(ControlMsg(if paused then Pause else Resume))
  {
    hide SetupOk, Exec;
  }

  /** The events that end a pause. */
  predicate Unpauses(e: S.Event) {
    e == S.PauseCall(false) || (e.Inbound? && e.frame.Sealed? && e.frame.msg == ControlMsg(Resume))
  }

  function Hashes(sent: seq<Msg>): nat {
    if sent == [] then 0 else Hashes(sent[..|sent| - 1]) + if sent[|sent| - 1].BlockHash? then 1 else 0
  }

  /** Blocks whose sending has already been decided. */
  function InHand(s: S.State): nat { if s.pc.Admitted? || s.pc.Retrying? || s.pc.Sending? then 1 else 0 }

  lemma {:induction false} HashesGrow(a: seq<Msg>, m: Msg)
    ensures Hashes(a + [m]) == Hashes(a) + if m.BlockHash? then 1 else 0
  {
    assert (a + [m])[..|a|] == a;
  }

  /** A paused loop at most skips blocks the receiver holds, or leaves for good. */
  lemma PausedLoop(c: S.Config, s: S.State)
    requires s.paused && s.pc.Loop? && S.ValidFile(c, s.tally.active)
    ensures var t := S.LoopStep(c, s, s.pc.next);
            t.link.sent == s.link.sent && (t.pc.Loop? || t.pc.Returned?) && t.paused
  {
    hide S.Pieces, S.ValidFile;
  }

  lemma PausedHand(c: S.Config, s: S.State, sendOk: bool)
    requires S.ConfigOk(c) && s.paused && (s.pc.Retrying? || s.pc.Sending?)
    ensures var t := S.RunStep(c, s, sendOk);
            && t.paused && (W.InFile(t.pc) || t.pc.Returned?)
            && (t.link.sent == s.link.sent
                || (exists m :: t.link.sent == s.link.sent + [m] && (m.BlockHash? ==> InHand(s) == 1 && InHand(t) == 0)))
  {
    hide S.Piece, S.Pieces, S.ConfigOk;
    var t := S.RunStep(c, s, sendOk);
    if t.link.sent != s.link.sent { assert t.link.sent == s.link.sent + [t.link.sent[|s.link.sent|]]; }
  }

  /** One step of a paused sender inside a file. */
  lemma PausedRun(c: S.Config, s: S.State, sendOk: bool)
    requires W.Inv(c, s) && s.paused && W.InFile(s.pc)
    ensures S.ConfigOk(c)
    ensures var t := S.RunStep(c, s, sendOk);
            && t.paused && (W.InFile(t.pc) || t.pc.Returned?)
            && Hashes(t.link.sent) + InHand(t) <= Hashes(s.link.sent) + InHand(s)
  {
    assert S.ConfigOk(c) by { SenderConfig(c, s); }
    hide W.Inv, Hashes, S.ConfigOk, S.LoopStep, S.Resend, S.SendStep, S.Piece;
    var t := S.RunStep(c, s, sendOk);
    if s.pc.Loop? && S.ValidFile(c, s.tally.active) {
      PausedLoop(c, s);
    } else if s.pc.Retrying? || s.pc.Sending? {
      PausedHand(c, s, sendOk);
      if t.link.sent != s.link.sent {
        var m :| t.link.sent == s.link.sent + [m] && (m.BlockHash? ==> InHand(s) == 1 && InHand(t) == 0);
        HashesGrow(s.link.sent, m);
      }
    }
  }

  lemma ReturnedStays(c: S.Config, s: S.State, e: S.Event)
    requires S.ConfigOk(c) && s.pc.Returned?
    ensures S.Apply(c, s, e).pc == s.pc && InHand(S.Apply(c, s, e)) == 0
    ensures Hashes(S.Apply(c, s, e).link.sent) == Hashes(s.link.sent)
  {
    QuietHashes(c, s, e);
    hide S.Enumerates, CompletionDigest, S.Dispatch, S.ConfigOk, Hashes;
  }

  /** No event but a step of Run seals a hash. */
  lemma QuietHashes(c: S.Config, s: S.State, e: S.Event)
    requires S.ConfigOk(c) && (!e.Advance? || s.pc.Returned?)
    ensures Hashes(S.Apply(c, s, e).link.sent) == Hashes(s.link.sent)
  {
    hide S.Enumerates, CompletionDigest, S.Dispatch, S.ConfigOk, Hashes;
    var t := S.Apply(c, s, e);
    HashesGrow(s.link.sent, ManifestMsg(c.manifest));
    HashesGrow(s.link.sent, Complete(CompletionDigest(c.manifest.files)));
    HashesGrow(s.link.sent + [ManifestMsg(c.manifest)], Complete(CompletionDigest(c.manifest.files)));
    if e.PauseCall? { HashesGrow(s.link.sent, ControlMsg(if e.paused then Pause else Resume)); }
    HashesGrow(s.link.sent, ControlMsg(Cancel));
  }

  lemma PausedApply(c: S.Config, s: S.State, e: S.Event)
    requires W.Inv(c, s) && s.paused && (W.InFile(s.pc) || s.pc.Returned?) && !Unpauses(e)
    ensures S.ConfigOk(c)
    ensures var t := S.Apply(c, s, e);
            && t.paused && (W.InFile(t.pc) || t.pc.Returned?)
            && Hashes(t.link.sent) + InHand(t) <= Hashes(s.link.sent) + InHand(s)
  {
    assert S.ConfigOk(c) by { SenderConfig(c, s); }
    if s.pc.Returned? {
      ReturnedStays(c, s, e);
    } else if e.Advance? {
      PausedRun(c, s, e.sendOk);
    } else {
      QuietHashes(c, s, e);
    }
    hide W.Inv, S.RunStep, S.Enumerates, CompletionDigest, S.ConfigOk, Hashes, S.BuildPlan;
  }

  /** A sender paused inside a file completes at most the block in hand until it is resumed,
      whatever else happens to it. */
  lemma {:induction false} PausedSendsNothingNew(c: S.Config, es: seq<S.Event>, more: seq<S.Event>)
    requires S.ConfigOk(c) && S.Exec(c, es).paused && W.InFile(S.Exec(c, es).pc)
    requires forall i :: 0 <= i < |more| ==> !Unpauses(more[i])
    ensures var s, t := S.Exec(c, es), S.Exec(c, es + more);
            && t.paused && (W.InFile(t.pc) || t.pc.Returned?)
            && Hashes(t.link.sent) + InHand(t) <= Hashes(s.link.sent) + InHand(s) <= Hashes(s.link.sent) + 1
    decreases |more|
  {
    hide S.Apply, W.Inv, Hashes, S.ConfigOk;
    if more == [] {
      assert es + more == es;
    } else {
      var init := more[..|more| - 1];
      PausedSendsNothingNew(c, es, init);
      assert (es + more)[..|es + more| - 1] == es + init;
      W.ReachableKeepsInv(c, es + init);
      PausedApply(c, S.Exec(c, es + init), more[|more| - 1]);
    }
  }
}
