/** Two engines on a path that loses nothing any more: what each side still needs is always on its
    way to it. Frames arrive in order, and nothing but the two engines acts. */
module Completion {
  import opened Wire
  import opened Geometry
  import opened ReceiverSafety
  import opened Cutover
  import S = SenderModel
  import W = SenderWindow
  import R = ReceiverModel
  import F = ReceiverEffects
  import SafePath

  /** Both engines, the frames on their way to the receiver, and the replies on their way back. */
  datatype Scene = Scene(s: S.State, r: R.State, p: seq<Msg>, q: seq<Msg>)

  // ---------------------------------------------------------------- what holds of a scene

  /** Both sides are going or have succeeded, the receiver first. */
  predicate Alive(v: Scene) {
    && (v.s.outcome == Running || v.s.outcome == Succeeded) && !v.s.paused
    && (v.r.outcome == Running || v.r.outcome == Succeeded)
    && (v.s.pc.Returned? ==> v.s.outcome == Succeeded && v.s.pc.ok)
    && (v.s.outcome == Succeeded ==> v.s.completeSent && v.r.outcome == Succeeded)
    && (v.r.outcome == Succeeded ==> v.s.completeSent)
    && (v.r.out.closed <==> v.r.outcome == Succeeded)
    && (v.s.completeSent ==> v.s.pc.WaitDone? || v.s.pc.Returned?)
  }

  predicate Forth(m: Msg) { m.ManifestMsg? || m.BlockData? || m.BlockHash? || m.Complete? }

  predicate Back(m: Msg) { m.Ack? || m.Nack? || m.ResumeMsg? || m.Done? }

  predicate Clean(v: Scene) {
    && (forall i :: 0 <= i < |v.p| ==> Forth(v.p[i]))
    && (forall i :: 0 <= i < |v.q| ==> Back(v.q[i]))
  }

  /** A receiver that does not know the manifest yet gets it first. */
  predicate ManifestFirst(v: Scene) {
    v.r.outcome == Running && v.r.terms.manifest == None ==>
      (v.s.pc.Begin? && v.p == []) || (v.p != [] && v.p[0].ManifestMsg?)
  }

  predicate HasManifest(p: seq<Msg>) { exists i :: 0 <= i < |p| && p[i].ManifestMsg? }

  predicate HasResume(q: seq<Msg>) { exists i :: 0 <= i < |q| && q[i].ResumeMsg? }

  predicate HasComplete(p: seq<Msg>) { exists i :: 0 <= i < |p| && p[i].Complete? }

  predicate HasDone(q: seq<Msg>) { exists i :: 0 <= i < |q| && q[i].Done? }

  /** A sender that waits for the resume_state has asked for it or has it coming. */
  predicate PlanComing(c: S.Config, v: Scene) {
    v.s.pc.AwaitResume? ==>
      c.manifest.transferId != [] && (v.s.plan.applied.Some? || HasManifest(v.p) || HasResume(v.q))
  }

  /** A sender that waits for Done has announced completion or has Done coming. */
  predicate DoneComing(v: Scene) {
    v.s.pc.WaitDone? && v.s.outcome == Running ==> HasComplete(v.p) || HasDone(v.q)
  }

  /** The receiver will see the hash of block `b` with the block in hand. */
  predicate InPipe(c: S.Config, spot: Spot, p: seq<Msg>, f: int, b: int)
    decreases |p|
  {
    p != [] &&
    ((p[0].BlockHash? && p[0].hashFile == f && p[0].hashBlock == b && spot != Lost)
     || InPipe(c, Next(c, spot, p[0]), p[1..], f, b))
  }

  /** The receiver has noted that block `b` came early and will ask for it. */
  predicate Noted(r: R.State, f: int, b: int) {
    r.outcome == Running && r.prog.fileOpen && r.prog.fileIdx == f && b in r.intake.seenAhead
  }

  /** Block `b` of the active file waits to be resent, or the receiver or its reply will move it on. */
  predicate Resting(c: S.Config, v: Scene, b: int) {
    var f := v.s.tally.active;
    || b in v.s.win.queue
    || InPipe(c, ReceiverSpot(v.r), v.p, f, b)
    || Ack(f, b) in v.q || Nack(f, b) in v.q
    || Noted(v.r, f, b)
  }

  /** Block `b` is being sent, and not into a part of the stream that the receiver skips. */
  predicate InHand(c: S.Config, v: Scene, b: int) {
    || (v.s.pc.Retrying? && v.s.pc.block == b)
    || (v.s.pc.Sending? && v.s.pc.block == b && (v.s.pc.off == 0 || Track(c, ReceiverSpot(v.r), v.p) != Lost))
  }

  predicate Covered(c: S.Config, v: Scene, b: int) { InHand(c, v, b) || Resting(c, v, b) }

  predicate AllCovered(c: S.Config, v: Scene) {
    W.InFile(v.s.pc) ==> forall b :: b in v.s.win.inflight ==> Covered(c, v, b)
  }

  /** Blocks noted as early are in flight and still ahead. */
  predicate NotedOk(v: Scene) {
    v.r.outcome == Running ==> forall b :: b in v.r.intake.seenAhead ==>
      && W.InFile(v.s.pc) && v.r.prog.fileOpen && v.r.prog.fileIdx == v.s.tally.active
      && b in v.s.win.inflight && v.r.prog.nextBlock < b
  }

  /** Hashes and nacks about the active file name blocks that have been admitted. */
  predicate BoundOk(v: Scene) {
    W.InFile(v.s.pc) ==>
      && (forall i :: 0 <= i < |v.p| && v.p[i].BlockHash? && v.p[i].hashFile == v.s.tally.active ==>
            v.p[i].hashBlock < v.s.pc.next)
      && (forall i :: 0 <= i < |v.q| && v.q[i].Nack? && v.q[i].nackFile == v.s.tally.active ==>
            v.q[i].nackBlock < v.s.pc.next)
  }

  function Count1(q: seq<Msg>, m: Msg): nat {
    if q == [] then 0 else Count1(q[1..], m) + if q[0] == m then 1 else 0
  }

  /** Whether the receiver may still ask for block `b`. */
  function MayAsk(x: Setup, r: R.State, f: int, b: int): nat {
    if IsCommitted(x, r.prog, f, b) then 0
    else if r.prog.fileOpen && r.prog.fileIdx == f && r.prog.nextBlock == b && r.intake.nackOutstanding == b then 0
    else 1
  }

  function One(p: bool): nat { if p then 1 else 0 }

  /** How often block `b` may have been resent when all is done. */
  function Spent(x: Setup, v: Scene, b: int): int
    requires b in v.s.win.inflight
  {
    v.s.win.inflight[b].retries + One(b in v.s.win.queue) + One(v.s.pc.Retrying? && v.s.pc.block == b)
    + Count1(v.q, Nack(v.s.tally.active, b)) + MayAsk(x, v.r, v.s.tally.active, b)
  }

  predicate BudgetOk(x: Setup, v: Scene) {
    W.InFile(v.s.pc) ==> forall b :: b in v.s.win.inflight ==> Spent(x, v, b) <= x.c.maxRetries
  }

  predicate Good(x: Setup, v: Scene) {
    && Alive(v) && Clean(v) && ManifestFirst(v) && PlanComing(x.c, v) && DoneComing(v)
    && AllCovered(x.c, v) && NotedOk(v) && BoundOk(v) && BudgetOk(x, v)
  }

  // ---------------------------------------------------------------- sequences of messages

  lemma {:induction false} InPipeAppend(c: S.Config, spot: Spot, p: seq<Msg>, m: Msg, f: int, b: int)
    ensures InPipe(c, spot, p, f, b) ==> InPipe(c, spot, p + [m], f, b)
    ensures m.BlockHash? && m.hashFile == f && m.hashBlock == b && Track(c, spot, p) != Lost ==> InPipe(c, spot, p + [m], f, b)
    decreases |p|
  {
    hide Next;
    if p == [] {
      assert p + [m] == [m];
    } else {
      assert p == [p[0]] + p[1..];
      TrackHead(c, spot, p[0], p[1..]);
      assert (p + [m])[1..] == p[1..] + [m];
      InPipeAppend(c, Next(c, spot, p[0]), p[1..], m, f, b);
    }
  }

  lemma {:induction false} CountAppend(q: seq<Msg>, more: seq<Msg>, m: Msg)
    ensures Count1(q + more, m) == Count1(q, m) + Count1(more, m)
    decreases |q|
  {
    if q == [] {
      assert q + more == more;
    } else {
      assert (q + more)[1..] == q[1..] + more;
      CountAppend(q[1..], more, m);
    }
  }

  lemma {:induction false} CountAbsent(q: seq<Msg>, m: Msg)
    requires m !in q
    ensures Count1(q, m) == 0
    decreases |q|
  {
    if q != [] { CountAbsent(q[1..], m); }
  }

  // ---------------------------------------------------------------- the sender runs

  /** The sender takes one step, and what it seals joins the frames on their way. */
  function AfterRun(c: S.Config, v: Scene): Scene
    requires S.ConfigOk(c)
  {
    var t := S.RunStep(c, v.s, true);
    v.(s := t, p := v.p + t.link.sent[|v.s.link.sent|..])
  }

  /** What is known of a sender and of the frames around it. */
  predicate SenderKnown(c: S.Config, v: Scene) {
    && W.Inv(c, v.s) && c.frameSize <= MAX_FRAME_PAYLOAD
    && (forall i :: 0 <= i < |v.p| && v.p[i].BlockHash? ==> v.p[i].hashFile <= v.s.tally.active)
    && (forall i :: 0 <= i < |v.q| && v.q[i].Nack? ==> v.q[i].nackFile <= v.s.tally.active)
  }

  lemma KnownConfig(c: S.Config, v: Scene)
    requires SenderKnown(c, v)
    ensures S.ConfigOk(c) && (v.s.pc.Loop? || v.s.pc.Admitted? ==> S.ValidFile(c, v.s.tally.active))
    ensures v.s.pc.Begin? ==> !v.s.manifestSent
  {
    hide W.QueueOk, W.PlanOk, W.TallyOk, W.WindowOk, W.PcOk, W.Behind;
  }

  lemma TrackPushed(c: S.Config, spot: Spot, p: seq<Msg>, m: Msg)
    ensures Track(c, spot, p + [m]) == Next(c, Track(c, spot, p), m)
  {
    assert (p + [m])[..|p|] == p;
  }

  /** What rests, rests on while more is sealed. */
  lemma RestingKept(c: S.Config, v: Scene, w: Scene, b: int)
    requires w.r == v.r && w.q == v.q && w.s.tally.active == v.s.tally.active
    requires w.p == v.p || exists m :: w.p == v.p + [m]
    requires b in v.s.win.queue ==> b in w.s.win.queue
    ensures Resting(c, v, b) ==> Resting(c, w, b)
  {
    hide InPipe, Noted;
    if w.p != v.p {
      var m :| w.p == v.p + [m];
      InPipeAppend(c, ReceiverSpot(v.r), v.p, m, v.s.tally.active, b);
    }
  }

  // Before the first file, between files, and after the last one.

  lemma BeginRuns(x: Setup, v: Scene)
    requires SenderKnown(x.c, v) && Good(x, v) && v.s.pc.Begin? && S.ConfigOk(x.c)
    ensures Good(x, AfterRun(x.c, v))
  {
    hide W.Inv, S.ConfigOk;
    var w := AfterRun(x.c, v);
    assert w.p == v.p + [ManifestMsg(x.c.manifest)];
    assert w.p[|v.p|].ManifestMsg?;
    Prefixed(v.p, w.p);
  }

  /** What is on its way stays on its way. */
  lemma Prefixed(p: seq<Msg>, more: seq<Msg>)
    requires p <= more
    ensures HasManifest(p) ==> HasManifest(more)
    ensures HasComplete(p) ==> HasComplete(more)
    ensures HasResume(p) ==> HasResume(more)
    ensures HasDone(p) ==> HasDone(more)
  {
    if HasManifest(p) { var i :| 0 <= i < |p| && p[i].ManifestMsg?; assert more[i].ManifestMsg?; }
    if HasComplete(p) { var i :| 0 <= i < |p| && p[i].Complete?; assert more[i].Complete?; }
    if HasResume(p) { var i :| 0 <= i < |p| && p[i].ResumeMsg?; assert more[i].ResumeMsg?; }
    if HasDone(p) { var i :| 0 <= i < |p| && p[i].Done?; assert more[i].Done?; }
  }

  lemma NothingSealed(c: S.Config, v: Scene)
    requires S.ConfigOk(c) && S.RunStep(c, v.s, true).link.sent == v.s.link.sent
    ensures AfterRun(c, v) == v.(s := S.RunStep(c, v.s, true))
  {
    hide S.RunStep, S.ConfigOk;
    assert v.p + [] == v.p;
  }

  lemma OneSealed(c: S.Config, v: Scene, m: Msg)
    requires S.ConfigOk(c) && S.RunStep(c, v.s, true).link.sent == v.s.link.sent + [m]
    ensures AfterRun(c, v) == v.(s := S.RunStep(c, v.s, true), p := v.p + [m])
  {
    hide S.RunStep, S.ConfigOk;
  }

  lemma OutsideRuns(x: Setup, v: Scene)
    requires SenderKnown(x.c, v) && Good(x, v) && S.ConfigOk(x.c)
    requires v.s.pc.AwaitResume? || v.s.pc.Activate? || v.s.pc.WaitDone? || v.s.pc.Returned?
    ensures Good(x, AfterRun(x.c, v))
  {
    hide S.ConfigOk, W.TallyOk, W.Behind, CompletionDigest, Committed, InPipe, Noted, Track;
    if v.s.pc.Activate? && v.s.pc.file == |x.c.manifest.files| {
      var m := Complete(CompletionDigest(x.c.manifest.files));
      OneSealed(x.c, v, m);
      assert (v.p + [m])[|v.p|].Complete?;
      Prefixed(v.p, v.p + [m]);
    } else {
      NothingSealed(x.c, v);
    }
  }

  // Inside a file.

  /** A step inside a file: the rest of the scene follows from the window. */
  predicate Inside(v: Scene, w: Scene) {
    && w.r == v.r && w.q == v.q && w.s.tally == v.s.tally && w.s.plan == v.s.plan
    && w.s.outcome == v.s.outcome == Running && w.s.paused == v.s.paused
    && w.s.manifestSent == v.s.manifestSent && w.s.completeSent == v.s.completeSent
    && W.InFile(v.s.pc) && W.InFile(w.s.pc) && v.s.pc.next <= w.s.pc.next
    && (forall b :: b in v.s.win.inflight ==> b in w.s.win.inflight)
  }

  predicate PushesInside(v: Scene, w: Scene, m: Msg) {
    W.InFile(v.s.pc) && w.p == v.p + [m] && (m.BlockData? || (m.BlockHash? && m.hashBlock < v.s.pc.next))
  }

  lemma InsideGood(x: Setup, v: Scene, w: Scene)
    requires Good(x, v) && Inside(v, w)
    requires w.p == v.p || exists m :: PushesInside(v, w, m)
    requires AllCovered(x.c, w) && BudgetOk(x, w)
    ensures Good(x, w)
  {
    hide AllCovered, BudgetOk;
  }

  lemma LoopRuns(x: Setup, v: Scene)
    requires SenderKnown(x.c, v) && Good(x, v) && S.ConfigOk(x.c) && v.s.pc.Loop? && S.ValidFile(x.c, v.s.tally.active)
    ensures Good(x, AfterRun(x.c, v))
  {
    assert v.s.outcome == Running && !v.s.paused;
    hide S.ConfigOk, S.Pieces, SenderKnown, S.ValidFile, InPipe, Noted, Track, Count1, MayAsk;
    var w := v.(s := S.LoopStep(x.c, v.s, v.s.pc.next));
    assert AfterRun(x.c, v) == w by { NothingSealed(x.c, v); }
    if w.s.pc.Activate? {
      LeaveGood(x, v, w);
    } else if v.s.win.queue != [] && w.s.win.queue != v.s.win.queue {
      assert W.QueueOk(v.s.win) by { KnownQueue(x.c, v); }
      PopGood(x, v, w);
    } else {
      assert w.s.win == v.s.win;
      forall b | b in w.s.win.inflight ensures Covered(x.c, w, b) && Spent(x, w, b) <= x.c.maxRetries {
        assert Covered(x.c, v, b) && Spent(x, v, b) <= x.c.maxRetries;
      }
      InsideGood(x, v, w);
    }
  }

  lemma KnownQueue(c: S.Config, v: Scene)
    requires SenderKnown(c, v)
    ensures W.QueueOk(v.s.win)
  {}

  lemma LeaveGood(x: Setup, v: Scene, w: Scene)
    requires Good(x, v) && w == v.(s := w.s) && v.s.pc.Loop? && w.s == v.s.(pc := w.s.pc) && w.s.pc.Activate?
    requires v.s.win.inflight == map[]
    ensures Good(x, w)
  {
    hide Covered, Spent;
  }

  /** The head of the queue is taken in hand, or dropped if it has been acknowledged. */
  lemma PopGood(x: Setup, v: Scene, w: Scene)
    requires Good(x, v) && v.s.pc.Loop? && v.s.win.queue != [] && W.QueueOk(v.s.win) && v.s.outcome == Running
    requires w == v.(s := S.PopRetry(v.s, v.s.pc.next))
    ensures Good(x, w)
  {
    hide InPipe, Noted, Track, Count1, MayAsk;
    var q := v.s.win.queue;
    assert q == [q[0]] + q[1..];
    forall b | b in w.s.win.inflight ensures Covered(x.c, w, b) && Spent(x, w, b) <= x.c.maxRetries {
      assert Covered(x.c, v, b) && Spent(x, v, b) <= x.c.maxRetries;
      assert b in q <==> b == q[0] || b in q[1..];
      assert q[0] !in q[1..];
      if b != q[0] { RestingKept(x.c, v, w, b); }
    }
    InsideGood(x, v, w);
  }

  lemma AdmitRuns(x: Setup, v: Scene)
    requires SenderKnown(x.c, v) && Good(x, v) && S.ConfigOk(x.c) && v.s.pc.Admitted?
    requires S.ValidFile(x.c, v.s.tally.active)
    requires 0 < x.c.maxRetries
    ensures Good(x, AfterRun(x.c, v))
  {
    assert v.s.outcome == Running;
    assert v.s.pc.next !in v.s.win.queue && v.s.pc.next !in v.s.win.inflight by { NotAdmittedYet(x.c, v); }
    hide S.ConfigOk, S.Piece, SenderKnown, S.ValidFile, InPipe, Noted, Track, MayAsk, IsCommitted;
    var w, next := v.(s := S.AdmitBlock(x.c, v.s, v.s.pc.next)), v.s.pc.next;
    assert AfterRun(x.c, v) == w by { NothingSealed(x.c, v); }
    forall b | b in w.s.win.inflight ensures Covered(x.c, w, b) && Spent(x, w, b) <= x.c.maxRetries {
      if b == next {
        assert Nack(v.s.tally.active, next) !in v.q;
        CountAbsent(v.q, Nack(v.s.tally.active, next));
        MayAskAtMostOne(x, v.r, v.s.tally.active, b);
      } else {
        assert Covered(x.c, v, b) && Spent(x, v, b) <= x.c.maxRetries;
        RestingKept(x.c, v, w, b);
      }
    }
    InsideGood(x, v, w);
  }

  lemma MayAskAtMostOne(x: Setup, r: R.State, f: int, b: int)
    ensures MayAsk(x, r, f, b) <= 1
  {}

  lemma NotAdmittedYet(c: S.Config, v: Scene)
    requires SenderKnown(c, v) && v.s.pc.Admitted?
    ensures v.s.pc.next !in v.s.win.queue && v.s.pc.next !in v.s.win.inflight
  {
    hide W.QueueOk, W.PlanOk, W.TallyOk, BlockOf, Blocks;
  }

  lemma RetryRuns(x: Setup, v: Scene)
    requires SenderKnown(x.c, v) && Good(x, v) && S.ConfigOk(x.c) && v.s.pc.Retrying?
    ensures Good(x, AfterRun(x.c, v))
  {
    assert v.s.outcome == Running;
    hide S.ConfigOk, SenderKnown, InPipe, Noted, Track, Count1, MayAsk;
    var block := v.s.pc.block;
    if block in v.s.win.inflight { assert Spent(x, v, block) <= x.c.maxRetries; }
    var w := v.(s := S.Resend(x.c, v.s, block, v.s.pc.next));
    assert AfterRun(x.c, v) == w by { NothingSealed(x.c, v); }
    forall b | b in w.s.win.inflight ensures Covered(x.c, w, b) && Spent(x, w, b) <= x.c.maxRetries {
      assert Covered(x.c, v, b) && Spent(x, v, b) <= x.c.maxRetries;
      RestingKept(x.c, v, w, b);
    }
    InsideGood(x, v, w);
  }

  lemma SendRuns(x: Setup, v: Scene)
    requires SenderKnown(x.c, v) && Good(x, v) && S.ConfigOk(x.c) && v.s.pc.Sending?
    ensures Good(x, AfterRun(x.c, v))
  {
    assert v.s.outcome == Running && 0 < x.c.frameSize <= MAX_FRAME_PAYLOAD;
    assert 0 <= v.s.tally.active && 0 <= v.s.pc.block < v.s.pc.next && 0 < |v.s.pc.bytes| && v.s.pc.off <= |v.s.pc.bytes| by {
      SendingKnown(x.c, v);
    }
    hide S.ConfigOk, SenderKnown, InPipe, Noted, Track, Next, Count1, MayAsk;
    var w := AfterRun(x.c, v);
    var m := if v.s.pc.off < |v.s.pc.bytes| then S.Fragment(x.c, v.s.tally.active, v.s.pc.block, v.s.pc.bytes, v.s.pc.off)
             else BlockHash(v.s.tally.active, v.s.pc.block, Sha(v.s.pc.bytes));
    OneSealed(x.c, v, m);
    hide S.RunStep, S.Fragment;
    SealedGood(x, v, w, m);
  }

  /** One more part of the block in hand is on its way. */
  lemma SealedGood(x: Setup, v: Scene, w: Scene, m: Msg)
    requires Good(x, v) && v.s.pc.Sending? && Inside(v, w) && PushesInside(v, w, m) && w.s.win == v.s.win
    requires 0 < |v.s.pc.bytes|
    requires if m.BlockData? then (v.s.pc.off == 0 ==> m.frameOff == 0) && w.s.pc.Sending? && w.s.pc.block == v.s.pc.block
             else m.hashFile == v.s.tally.active && m.hashBlock == v.s.pc.block && v.s.pc.off != 0 && w.s.pc.Loop?
    ensures Good(x, w)
  {
    hide InPipe, Noted, Track, Next, Count1, MayAsk;
    var spot := ReceiverSpot(v.r);
    TrackPushed(x.c, spot, v.p, m);
    StaysFound(x.c, Track(x.c, spot, v.p), m);
    InPipeAppend(x.c, spot, v.p, m, v.s.tally.active, v.s.pc.block);
    forall b | b in w.s.win.inflight ensures Covered(x.c, w, b) && Spent(x, w, b) <= x.c.maxRetries {
      assert Covered(x.c, v, b) && Spent(x, v, b) <= x.c.maxRetries;
      RestingKept(x.c, v, w, b);
    }
    InsideGood(x, v, w);
  }

  /** A receiver that does not skip does not start skipping; the start of a block ends skipping. */
  lemma StaysFound(c: S.Config, spot: Spot, m: Msg)
    ensures spot != Lost ==> Next(c, spot, m) != Lost
    ensures m.BlockData? && m.frameOff == 0 ==> Next(c, spot, m) != Lost
  {}

  lemma SendingKnown(c: S.Config, v: Scene)
    requires SenderKnown(c, v) && v.s.pc.Sending? && S.ConfigOk(c)
    ensures 0 <= v.s.tally.active && 0 <= v.s.pc.block < v.s.pc.next && 0 < |v.s.pc.bytes|
    ensures v.s.pc.off <= |v.s.pc.bytes|
  {
    hide W.QueueOk, W.PlanOk, W.TallyOk, W.WindowOk, BlockOf, Blocks;
    BlockOfLength(c.streams[v.s.tally.active], c.manifest.files[v.s.tally.active].blockSize, v.s.pc.block);
  }

  /** Whatever the sender does next, the scene stays sound. */
  lemma SenderKeepsGood(x: Setup, v: Scene)
    requires SenderKnown(x.c, v) && Good(x, v) && 0 < x.c.maxRetries
    ensures S.ConfigOk(x.c) && Good(x, AfterRun(x.c, v))
  {
    KnownConfig(x.c, v);
    hide SenderKnown, Good, AfterRun, S.ConfigOk;
    match v.s.pc {
      case Begin => BeginRuns(x, v);
      case Loop(_) => LoopRuns(x, v);
      case Admitted(_) => AdmitRuns(x, v);
      case Retrying(_, _) => RetryRuns(x, v);
      case Sending(_, _, _, _) => SendRuns(x, v);
      case _ => OutsideRuns(x, v);
    }
  }
}
