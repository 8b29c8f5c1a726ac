/** Runs in which frames reach the receiver in order except at path changes, where one
    contiguous segment of the stream may be lost, provided the receiver learns of the change
    inside that gap. Frames to the sender may be lost, repeated and reordered freely, and old
    frames may be replayed to the receiver at any time. */
module Cutover {
  import opened Wire
  import opened Geometry
  import opened ReceiverSafety
  import opened Engine
  import opened EngineResults
  import S = SenderModel
  import W = SenderWindow
  import R = ReceiverModel
  import A = ReceiverAnswers
  import SafePath

  // ---------------------------------------------------------------- ordered runs

  /** Whether the receiver has been told of a path change since its last fresh frame. */
  function Gap(x: Setup, es: seq<Event>): bool
    requires SetupOk(x)
  {
    if es == [] then false
    else
      var init, e := es[..|es| - 1], es[|es| - 1];
      if e.ReceiverPathChange? then true
      else if e.ToReceiver? && Exec(x, init).r.link.recvCounter <= e.i then false
      else Gap(x, init)
  }

  /** The next frame in order, a replay, or, after a path change, a frame beyond a gap. */
  predicate Expected(y: System, gap: bool, e: Event) {
    && !e.ForgedToReceiver? && !e.ForgedToSender?
    && (e.ToReceiver? ==> e.i <= y.r.link.recvCounter || gap)
  }

  /** The receiver takes a frame it answers while it cannot send. */
  predicate Missed(y: System, e: Event)
    requires R.Sane(y.r)
  {
    e.ToReceiver? && e.fault == R.SendFault && e.i < |y.s.link.sent| && A.Answers(y.r, FrameOf(y.s.link, e.i))
  }

  predicate Ordered(x: Setup, es: seq<Event>)
    requires SetupOk(x)
  {
    es == [] ||
    (Ordered(x, es[..|es| - 1]) && Expected(Exec(x, es[..|es| - 1]), Gap(x, es[..|es| - 1]), es[|es| - 1]))
  }

  predicate AnyMissed(x: Setup, es: seq<Event>)
    requires SetupOk(x)
  {
    es != [] && (AnyMissed(x, es[..|es| - 1]) || Missed(Exec(x, es[..|es| - 1]), es[|es| - 1]))
  }

  /** An ordered run in which every answer of the receiver could be sent. */
  predicate InOrder(x: Setup, es: seq<Event>)
    requires SetupOk(x)
  {
    Ordered(x, es) && !AnyMissed(x, es)
  }

  /** The 32-bit header field holds every block index of this transfer. (The 16-bit file field
      holds every file index of a valid manifest.) */
  predicate Fits(x: Setup) {
    forall f :: 0 <= f < Count(x) ==> Entry(x, f).blocks <= 0x1_0000_0000
  }

  /** The sender hears from the receiver before it can send Complete. */
  predicate Answered(x: Setup) {
    x.c.manifest.transferId != [] || exists f :: 0 <= f < Count(x) && Entry(x, f).blocks > 0
  }

  predicate GoodReason(reason: Reason) { reason != Integrity && reason != DigestMismatch }

  predicate GoodOutcome(o: Outcome) { o.Failed? ==> GoodReason(o.reason) }

  // ---------------------------------------------------------------- the stream between the two

  /** How far into a block one end of the stream is. `Lost` is a receiver that skips to the
      next block start; `Bad` is a stream it would reject. */
  datatype Spot = Lost | Idle | Mid(file: int, block: int, off: int) | Bad

  function Next(c: S.Config, spot: Spot, m: Msg): Spot {
    match m
    case BlockData(f, b, off, p) =>
      if spot == Bad then Bad
      else if off == 0 then (if spot.Mid? then Bad else Mid(f, b, |p|))
      else if spot == Lost then Lost
      else if spot == Mid(f, b, off) then Mid(f, b, off + |p|)
      else Bad
    case BlockHash(f, b, _) =>
      if spot == Lost then Lost
      else if S.ValidFile(c, f) && 0 <= b && spot == Mid(f, b, |S.Piece(c, f, b)|) then Idle
      else Bad
    case _ => spot
  }

  function Track(c: S.Config, spot: Spot, q: seq<Msg>): Spot {
    if q == [] then spot else Next(c, Track(c, spot, q[..|q| - 1]), q[|q| - 1])
  }

  lemma {:induction false} TrackBad(c: S.Config, q: seq<Msg>)
    ensures Track(c, Bad, q) == Bad
    decreases |q|
  {
    if q != [] { TrackBad(c, q[..|q| - 1]); }
  }

  lemma {:induction false} TrackAppend(c: S.Config, spot: Spot, p: seq<Msg>, q: seq<Msg>)
    ensures Track(c, spot, p + q) == Track(c, Track(c, spot, p), q)
    decreases |q|
  {
    hide Next;
    if q == [] {
      assert p + q == p;
    } else {
      TrackAppend(c, spot, p, q[..|q| - 1]);
      assert (p + q)[..|p + q| - 1] == p + q[..|q| - 1];
    }
  }

  lemma TrackHead(c: S.Config, spot: Spot, m: Msg, q: seq<Msg>)
    ensures Track(c, spot, [m] + q) == Track(c, Next(c, spot, m), q)
  {
    hide Next;
    TrackAppend(c, spot, [m], q);
    assert [m][..0] == [];
  }

  /** A receiver that skips either is still skipping or has caught up with any other reader. */
  lemma {:induction false} LostCatchesUp(c: S.Config, spot: Spot, q: seq<Msg>)
    requires Track(c, spot, q) != Bad
    ensures Track(c, Lost, q) == Lost || Track(c, Lost, q) == Track(c, spot, q)
    decreases |q|
  {
    if q != [] {
      assert Track(c, spot, q[..|q| - 1]) != Bad;
      LostCatchesUp(c, spot, q[..|q| - 1]);
    }
  }

  function ReceiverSpot(r: R.State): Spot {
    if r.terms.manifest == None then Lost
    else if r.intake.asm.Some? then Mid(r.intake.asm.value.file, r.intake.asm.value.block, |r.intake.asm.value.got|)
    else if r.intake.awaitingRestart then Lost
    else Idle
  }

  function SenderSpot(s: S.State): Spot {
    if s.pc.Sending? && s.pc.off > 0 then Mid(s.tally.active, s.pc.block, s.pc.off) else Idle
  }

  // ---------------------------------------------------------------- invariant

  /** How far the sender has got: its file, and which announcements it has made. */
  datatype Reach = Reach(active: int, manifestSent: bool, completeSent: bool)

  function ReachOf(s: S.State): Reach { Reach(s.tally.active, s.manifestSent, s.completeSent) }

  predicate Later(a: Reach, b: Reach) {
    && a.active <= b.active
    && (a.manifestSent ==> b.manifestSent) && (a.completeSent ==> b.completeSent)
  }

  /** A message in the sender's history, relative to how far it has got. */
  predicate FromSender(c: S.Config, m: Msg, at: Reach) {
    match m
    case ManifestMsg(manifest) => manifest == c.manifest && at.manifestSent
    case BlockData(f, b, off, p) =>
      && f <= at.active && S.ValidFile(c, f) && b < S.Pieces(c, f)
      && 0 < |p| && off + |p| <= |S.Piece(c, f, b)| && p == S.Piece(c, f, b)[off..off + |p|]
    case BlockHash(f, b, sha) =>
      f <= at.active && S.ValidFile(c, f) && 0 <= b < S.Pieces(c, f) && sha == Sha(S.Piece(c, f, b))
    case Complete(d) => at.completeSent && d == CompletionDigest(c.manifest.files)
    case Fail(reason) => GoodReason(reason)
    case ControlMsg(_) => true
    case _ => false
  }

  predicate HistoryOk(c: S.Config, sent: seq<Msg>, at: Reach) {
    forall i :: 0 <= i < |sent| ==> FromSender(c, sent[i], at)
  }

  /** A message in the receiver's history. */
  predicate FromReceiver(m: Msg, at: Reach, hasManifest: bool) {
    match m
    case Ack(f, _) => f <= at.active
    case Nack(f, _) => f <= at.active
    case Done => at.completeSent
    case Fail(reason) => GoodReason(reason)
    case ResumeMsg(_) => hasManifest
    case ControlMsg(_) => true
    case _ => false
  }

  predicate RepliesOk(sent: seq<Msg>, at: Reach, hasManifest: bool) {
    forall i :: 0 <= i < |sent| ==> FromReceiver(sent[i], at, hasManifest)
  }

  /** The assembled bytes are the sender's, and assembly and skipping exclude each other. */
  predicate IntakeOk(x: Setup, r: R.State) {
    r.intake.asm.Some? ==>
      var a := r.intake.asm.value;
      && r.terms.manifest.Some? && !r.intake.awaitingRestart
      && S.ValidFile(x.c, a.file) && a.block < S.Pieces(x.c, a.file)
      && |a.got| <= |S.Piece(x.c, a.file, a.block)|
      && a.got == S.Piece(x.c, a.file, a.block)[..|a.got|]
  }

  /** What the receiver has yet to see leads it, without a rejection, to where the sender is. */
  predicate StreamOk(x: Setup, y: System, gap: bool) {
    && y.r.link.recvCounter <= |y.s.link.sent|
    && (gap ==> ReceiverSpot(y.r) == Lost)
    && var t := Track(x.c, ReceiverSpot(y.r), y.s.link.sent[y.r.link.recvCounter..]);
       t != Bad && (y.s.pc.Returned? || t == Lost || t == SenderSpot(y.s))
  }

  function Passed(x: Setup, at: Reach): int { if at.completeSent then Count(x) else at.active }

  /** Every file the sender has passed is finished at the receiver or needs no blocks. */
  predicate Reached(x: Setup, p: R.Progress, at: Reach) {
    forall g :: 0 <= g < Count(x) && g < Passed(x, at) ==> g < p.fileIdx || Held(x, g) == Entry(x, g).blocks
  }

  predicate CutoverInv(x: Setup, y: System, gap: bool) {
    var at, known := ReachOf(y.s), y.r.terms.manifest.Some?;
    && SystemInv(x, y) && Stable(x) && Fits(x) && Answered(x)
    && GoodOutcome(y.s.outcome) && GoodOutcome(y.r.outcome)
    && HistoryOk(x.c, y.s.link.sent, at)
    && RepliesOk(y.r.link.sent, at, known)
    && (known ==> y.s.manifestSent) && at.active < Count(x)
    && (y.s.plan.applied.Some? || y.s.completeSent ==> known)
    && (y.r.outcome == Running ==> IntakeOk(x, y.r) && StreamOk(x, y, gap) && Reached(x, y.r.prog, at))
  }

  // ---------------------------------------------------------------- sender steps

  predicate Neutral(m: Msg) { !m.BlockData? && !m.BlockHash? }

  lemma {:induction false} TrackNeutral(c: S.Config, spot: Spot, q: seq<Msg>)
    requires forall m :: m in q ==> Neutral(m)
    ensures Track(c, spot, q) == spot
    decreases |q|
  {
    if q != [] {
      TrackNeutral(c, spot, q[..|q| - 1]);
      assert Neutral(q[|q| - 1]);
    }
  }

  lemma TrackPush(c: S.Config, spot: Spot, sent: seq<Msg>, rc: nat, more: seq<Msg>)
    requires rc <= |sent|
    ensures Track(c, spot, (sent + more)[rc..]) == Track(c, Track(c, spot, sent[rc..]), more)
  {
    hide Next;
    assert (sent + more)[rc..] == sent[rc..] + more;
    TrackAppend(c, spot, sent[rc..], more);
  }

  /** The sender moved without sealing part of a block. */
  lemma QuietStream(x: Setup, y: System, t: S.State, gap: bool, more: seq<Msg>)
    requires StreamOk(x, y, gap)
    requires t.link.sent == y.s.link.sent + more && (forall m :: m in more ==> Neutral(m))
    requires t.pc.Returned? || (!y.s.pc.Returned? && SenderSpot(t) == SenderSpot(y.s))
    ensures StreamOk(x, y.(s := t), gap)
  {
    hide Track;
    TrackPush(x.c, ReceiverSpot(y.r), y.s.link.sent, y.r.link.recvCounter, more);
    TrackNeutral(x.c, Track(x.c, ReceiverSpot(y.r), y.s.link.sent[y.r.link.recvCounter..]), more);
  }

  lemma SendingFacts(x: Setup, s: S.State)
    requires W.Inv(x.c, s) && s.pc.Sending?
    ensures S.ValidFile(x.c, s.tally.active) && 0 <= s.pc.block < S.Pieces(x.c, s.tally.active)
    ensures s.pc.bytes == S.Piece(x.c, s.tally.active, s.pc.block)
    ensures s.pc.off <= |s.pc.bytes| && 0 < |s.pc.bytes| <= MAX_MANIFEST_BLOCK_BYTES
  {
    assert W.Position(x.c, s) && W.PcOk(x.c, s) && S.ConfigOk(x.c);
    var f := s.tally.active;
    BlockOfLength(x.c.streams[f], Entry(x, f).blockSize, s.pc.block);
    hide W.Inv, W.Position, BlockOf, Blocks;
  }

  lemma FragmentIsGenuine(x: Setup, s: S.State)
    requires W.Inv(x.c, s) && Count(x) <= 0x1_0000 && Fits(x) && Stable(x) && s.pc.Sending?
    requires s.pc.off < |s.pc.bytes| && 0 < x.c.frameSize
    ensures 0 <= s.tally.active && 0 <= s.pc.block
    ensures var m := S.Fragment(x.c, s.tally.active, s.pc.block, s.pc.bytes, s.pc.off);
            && m.fileIdx == s.tally.active && m.blockIdx == s.pc.block && m.frameOff == s.pc.off
            && m.frameOff + |m.payload| == S.Min(s.pc.off + x.c.frameSize, |s.pc.bytes|)
            && FromSender(x.c, m, ReachOf(s))
  {
    hide W.Inv, S.Piece, Blocks;
    SendingFacts(x, s);
    assert s.pc.block < Entry(x, s.tally.active).blocks <= 0x1_0000_0000;
  }

  lemma HashIsGenuine(x: Setup, s: S.State)
    requires W.Inv(x.c, s) && s.pc.Sending? && s.pc.off >= |s.pc.bytes|
    ensures 0 <= s.tally.active && 0 <= s.pc.block && s.pc.off == |s.pc.bytes| > 0
    ensures S.ValidFile(x.c, s.tally.active) && s.pc.bytes == S.Piece(x.c, s.tally.active, s.pc.block)
    ensures FromSender(x.c, BlockHash(s.tally.active, s.pc.block, Sha(s.pc.bytes)), ReachOf(s))
  {
    hide W.Inv, S.Piece, Blocks;
    SendingFacts(x, s);
  }

  lemma PushHistory(c: S.Config, sent: seq<Msg>, at: Reach, at': Reach, more: seq<Msg>)
    requires HistoryOk(c, sent, at) && Later(at, at') && (forall m :: m in more ==> FromSender(c, m, at'))
    ensures HistoryOk(c, sent + more, at')
  {
    hide S.Piece, S.Pieces, S.ValidFile;
    forall i | 0 <= i < |sent| ensures FromSender(c, sent[i], at') {
      assert FromSender(c, sent[i], at);
    }
    hide FromSender;
  }

  lemma RepliesLater(sent: seq<Msg>, at: Reach, known: bool, at': Reach, known': bool)
    requires RepliesOk(sent, at, known) && Later(at, at') && (known ==> known')
    ensures RepliesOk(sent, at', known')
  {
    forall i | 0 <= i < |sent| ensures FromReceiver(sent[i], at', known') {
      assert FromReceiver(sent[i], at, known);
    }
  }

  /** The sender's half of the invariant after one of its own steps. */
  predicate SenderHalf(x: Setup, y: System, t: S.State, gap: bool) {
    && GoodOutcome(t.outcome)
    && Later(ReachOf(y.s), ReachOf(t))
    && HistoryOk(x.c, t.link.sent, ReachOf(t))
    && (y.r.outcome == Running ==> StreamOk(x, y.(s := t), gap))
  }

  predicate SenderPre(x: Setup, y: System, gap: bool) {
    && W.Inv(x.c, y.s) && Count(x) <= 0x1_0000 && Fits(x) && Stable(x)
    && SenderHalf(x, y, y.s, gap)
  }

  lemma QuietStep(x: Setup, y: System, t: S.State, gap: bool, more: seq<Msg>)
    requires SenderHalf(x, y, y.s, gap)
    requires GoodOutcome(t.outcome) && Later(ReachOf(y.s), ReachOf(t))
    requires t.link.sent == y.s.link.sent + more
    requires forall m :: m in more ==> Neutral(m) && FromSender(x.c, m, ReachOf(t))
    requires t.pc.Returned? || (!y.s.pc.Returned? && SenderSpot(t) == SenderSpot(y.s))
    ensures SenderHalf(x, y, t, gap)
  {
    hide HistoryOk, FromSender, StreamOk;
    PushHistory(x.c, y.s.link.sent, ReachOf(y.s), ReachOf(t), more);
    assert y.(s := y.s) == y;
    if y.r.outcome == Running { QuietStream(x, y, t, gap, more); }
  }

  lemma BlockPartStream(x: Setup, y: System, t: S.State, gap: bool, m: Msg)
    requires StreamOk(x, y, gap) && y.s.pc.Sending?
    requires t.link.sent == y.s.link.sent + [m]
    requires Next(x.c, SenderSpot(y.s), m) != Bad
    requires t.pc.Returned? || Next(x.c, SenderSpot(y.s), m) == SenderSpot(t)
    requires Next(x.c, Lost, m) == Lost || Next(x.c, Lost, m) == Next(x.c, SenderSpot(y.s), m)
    ensures StreamOk(x, y.(s := t), gap)
  {
    hide Track, Next;
    var u := Track(x.c, ReceiverSpot(y.r), y.s.link.sent[y.r.link.recvCounter..]);
    TrackPush(x.c, ReceiverSpot(y.r), y.s.link.sent, y.r.link.recvCounter, [m]);
    TrackHead(x.c, u, m, []);
    assert [m] + [] == [m];
    assert Track(x.c, Next(x.c, u, m), []) == Next(x.c, u, m) by { TrackNeutral(x.c, Next(x.c, u, m), []); }
  }

  lemma PartHalf(x: Setup, y: System, t: S.State, gap: bool, m: Msg)
    requires SenderHalf(x, y, y.s, gap) && y.s.pc.Sending?
    requires FromSender(x.c, m, ReachOf(y.s)) && ReachOf(t) == ReachOf(y.s) && GoodOutcome(t.outcome)
    requires t.link.sent == y.s.link.sent + [m]
    requires Next(x.c, SenderSpot(y.s), m) != Bad
    requires t.pc.Returned? || Next(x.c, SenderSpot(y.s), m) == SenderSpot(t)
    requires Next(x.c, Lost, m) == Lost || Next(x.c, Lost, m) == Next(x.c, SenderSpot(y.s), m)
    ensures SenderHalf(x, y, t, gap)
  {
    hide StreamOk, HistoryOk, FromSender, Next;
    PushHistory(x.c, y.s.link.sent, ReachOf(y.s), ReachOf(t), [m]);
    assert y.(s := y.s) == y;
    if y.r.outcome == Running { BlockPartStream(x, y, t, gap, m); }
  }

  /** Sealing one fragment or the hash of the block in progress. */
  lemma SendHalf(x: Setup, y: System, gap: bool, sendOk: bool)
    requires SenderPre(x, y, gap) && y.s.pc.Sending? && S.ConfigOk(x.c)
    ensures SenderHalf(x, y, S.SendStep(x.c, y.s, sendOk), gap)
  {
    hide StreamOk, HistoryOk, W.Inv, Fits, Stable, S.Fragment, FromSender, S.Piece, S.ValidFile;
    var s, t := y.s, S.SendStep(x.c, y.s, sendOk);
    if s.pc.off < |s.pc.bytes| {
      FragmentIsGenuine(x, s);
      var m := S.Fragment(x.c, s.tally.active, s.pc.block, s.pc.bytes, s.pc.off);
      if |m.payload| > MAX_FRAME_PAYLOAD {
        QuietStep(x, y, t, gap, []);
      } else {
        PartHalf(x, y, t, gap, m);
      }
    } else {
      HashIsGenuine(x, s);
      PartHalf(x, y, t, gap, BlockHash(s.tally.active, s.pc.block, Sha(s.pc.bytes)));
    }
  }

  lemma RunHalf(x: Setup, y: System, gap: bool, sendOk: bool)
    requires SenderPre(x, y, gap) && S.ConfigOk(x.c)
    ensures SenderHalf(x, y, S.RunStep(x.c, y.s, sendOk), gap)
  {
    hide SenderHalf, S.SendStep, S.LoopStep, S.Piece, S.Pieces, Committed, Fits, Stable, S.ConfigOk, W.Inv;
    var s, t := y.s, S.RunStep(x.c, y.s, sendOk);
    RunPosition(x, s);
    assert GoodOutcome(s.outcome) by { HalfFacts(x, y, s, gap); }
    match s.pc {
      case Begin => QuietStep(x, y, t, gap, [ManifestMsg(x.c.manifest)]);
      case Activate(f) =>
        if f < Count(x) { QuietStep(x, y, t, gap, []); }
        else { QuietStep(x, y, t, gap, [Complete(CompletionDigest(x.c.manifest.files))]); }
      case Sending(_, _, _, _) => SendHalf(x, y, gap, sendOk);
      case Retrying(block, next) =>
        if t.link.sent == s.link.sent { QuietStep(x, y, t, gap, []); }
        else { QuietStep(x, y, t, gap, [Fail(RetryExhausted)]); }
      case Loop(_) => LoopHalf(x, y, gap);
      case _ => QuietStep(x, y, t, gap, []);
    }
  }

  lemma LoopHalf(x: Setup, y: System, gap: bool)
    requires SenderPre(x, y, gap) && S.ConfigOk(x.c) && y.s.pc.Loop?
    ensures SenderHalf(x, y, S.RunStep(x.c, y.s, true), gap)
  {
    hide SenderHalf, S.Pieces, Committed, Fits, Stable, S.ConfigOk, W.Inv;
    HalfFacts(x, y, y.s, gap);
    QuietStep(x, y, S.RunStep(x.c, y.s, true), gap, []);
  }

  lemma RunPosition(x: Setup, s: S.State)
    requires W.Inv(x.c, s)
    ensures s.pc.Activate? ==> s.tally.active <= s.pc.file
  {}

  lemma HalfFacts(x: Setup, y: System, t: S.State, gap: bool)
    requires SenderHalf(x, y, t, gap)
    ensures GoodOutcome(t.outcome)
  {}

  lemma PathHalf(x: Setup, y: System, gap: bool, order: seq<int>)
    requires SenderPre(x, y, gap)
    ensures SenderHalf(x, y, S.TransportChanged(x.c, y.s, order), gap)
  {
    hide SenderHalf, S.Enumerates, Fits, Stable, W.Inv;
    var s, t := y.s, S.TransportChanged(x.c, y.s, order);
    HalfFacts(x, y, s, gap);
    var a := if t == s || !s.manifestSent || s.tally.acknowledged != 0 then [] else [ManifestMsg(x.c.manifest)];
    var b := if t == s || !s.completeSent then [] else [Complete(CompletionDigest(x.c.manifest.files))];
    assert t.link.sent == s.link.sent + (a + b);
    QuietStep(x, y, t, gap, a + b);
  }

  /** Every step the sender takes on its own. */
  lemma ActHalf(x: Setup, y: System, gap: bool, e: S.Event)
    requires SenderPre(x, y, gap) && S.ConfigOk(x.c) && !e.Inbound?
    ensures SenderHalf(x, y, S.Apply(x.c, y.s, e), gap)
  {
    hide SenderHalf, Fits, Stable, W.Inv, S.RunStep, S.TransportChanged, S.ConfigOk;
    var s, t := y.s, S.Apply(x.c, y.s, e);
    HalfFacts(x, y, s, gap);
    match e {
      case Advance(sendOk) => RunHalf(x, y, gap, sendOk);
      case PathChange(order) => PathHalf(x, y, gap, order);
      case CompleteTick =>
        QuietStep(x, y, t, gap, if t == s then [] else [Complete(CompletionDigest(x.c.manifest.files))]);
      case PauseCall(paused) =>
        QuietStep(x, y, t, gap, if t == s then [] else [ControlMsg(if paused then Pause else Resume)]);
      case CancelCall => QuietStep(x, y, t, gap, if t == s then [] else [ControlMsg(Cancel)]);
      case Inbound(_) =>
      case _ => QuietStep(x, y, t, gap, []);
    }
  }

  // ---------------------------------------------------------------- what the sender has passed

  /** Files the sender is done with, seen from a receiver that is between two calls. */
  lemma DoneIsReached(x: Setup, y: System, n: nat)
    requires SystemInv(x, y) && Stable(x) && n <= Count(x) && DoneUpTo(x, y.s, y.r.prog, n)
    requires forall f :: 0 <= f < Count(x) ==> S.Have(y.s.plan, f) == Held(x, f)
    requires y.r.outcome == Running
    ensures forall g :: 0 <= g < n ==> g < y.r.prog.fileIdx || Held(x, g) == Entry(x, g).blocks
  {
    RunningFacts(x, y);
    Facts(x, y);
    var p := y.r.prog;
    hide SystemInv, SinksOk, W.PlanOk, Linked, W.Position;
    forall g | 0 <= g < n ensures g < p.fileIdx || Held(x, g) == Entry(x, g).blocks {
      var e := Entry(x, g);
      assert HostHonest(x, g);
      hide Held, SetupOk, Blocks;
      assert S.ValidFile(x.c, g) && S.Pieces(x.c, g) == e.blocks;
      if Held(x, g) < e.blocks { assert IsCommitted(x, p, g, e.blocks - 1); }
    }
  }

  lemma RunningFacts(x: Setup, y: System)
    requires SystemInv(x, y) && y.r.outcome == Running
    ensures var p := y.r.prog;
            if y.r.terms.manifest == None then p == R.Progress(0, false, 0, [], [], 0)
            else if p.fileOpen then p.fileIdx < Count(x) && Held(x, p.fileIdx) <= p.nextBlock < Entry(x, p.fileIdx).blocks
            else p.fileIdx == Count(x)
  {
    hide W.Inv, AllGenuine, Linked, Agreed, SinksOk, SentOk, LogOk, AsmOk, R.WellFormed, SetupOk, Live, Held;
  }

  lemma DoneIsKnown(x: Setup, y: System)
    requires SystemInv(x, y) && Stable(x) && Answered(x) && DoneUpTo(x, y.s, y.r.prog, Count(x))
    requires x.c.manifest.transferId != [] ==> y.s.plan.applied.Some? && y.r.terms.manifest.Some?
    requires forall f :: 0 <= f < Count(x) ==> S.Have(y.s.plan, f) == Held(x, f)
    ensures y.r.terms.manifest.Some?
  {
    if x.c.manifest.transferId == [] {
      var f :| 0 <= f < Count(x) && Entry(x, f).blocks > 0;
      assert !Resuming(x) && Held(x, f) == 0;
      assert y.r.terms.manifest == None ==> y.r.prog == R.Progress(0, false, 0, [], [], 0);
      Facts(x, y);
      hide SystemInv, SinksOk, W.PlanOk, Linked, W.Position, Held;
      assert HostHonest(x, f) && S.ValidFile(x.c, f) && S.Pieces(x.c, f) == Entry(x, f).blocks;
      assert IsCommitted(x, y.r.prog, f, 0);
    }
  }

  /** The sender enters a file, or announces completion, only past finished files. */
  lemma ActReached(x: Setup, y: System, gap: bool, e: S.Event)
    requires CutoverInv(x, y, gap) && !e.Inbound? && S.ConfigOk(x.c)
    ensures var t := S.Apply(x.c, y.s, e);
            && t.tally.active < Count(x)
            && (t.completeSent ==> y.r.terms.manifest.Some?)
            && (y.r.outcome == Running ==> Reached(x, y.r.prog, ReachOf(t)))
  {
    hide S.Apply, StreamOk, IntakeOk, HistoryOk, RepliesOk, SystemInv, W.Inv, Fits, Stable, Reached, Answered,
      GoodOutcome, S.ConfigOk;
    var s, t := y.s, S.Apply(x.c, y.s, e);
    assert W.Inv(x.c, s) by { SenderInv(x, y); }
    ActReach(x.c, s, e);
    if Passed(x, ReachOf(t)) == Passed(x, ReachOf(s)) && t.completeSent == s.completeSent {
      ReachedSame(x, y.r.prog, ReachOf(s), ReachOf(t));
    } else {
      EnteringReached(x, y, ReachOf(t));
    }
  }

  lemma ReachedSame(x: Setup, p: R.Progress, a: Reach, b: Reach)
    requires Passed(x, a) == Passed(x, b)
    ensures Reached(x, p, a) ==> Reached(x, p, b)
  {
    hide Held;
  }

  lemma EnteringReached(x: Setup, y: System, at: Reach)
    requires SystemInv(x, y) && Stable(x) && Answered(x) && y.s.pc.Activate?
    requires y.s.plan.applied.Some? ==> y.r.terms.manifest.Some?
    requires at.completeSent ==> y.s.pc.file == Count(x)
    requires !at.completeSent ==> at.active == y.s.pc.file
    ensures at.completeSent ==> y.r.terms.manifest.Some?
    ensures y.r.outcome == Running ==> Reached(x, y.r.prog, at)
  {
    hide SystemInv, Stable, Held, DoneUpTo, Answered;
    SenderInv(x, y);
    PlanMatches(x, y);
    TallyFacts(x, y);
    if y.r.outcome == Running { DoneIsReached(x, y, y.s.pc.file); }
    if at.completeSent { DoneIsKnown(x, y); }
  }

  lemma RunFacts(c: S.Config, s: S.State)
    requires W.Inv(c, s)
    ensures S.ConfigOk(c) && (s.pc.Activate? ==> s.pc.file <= |c.manifest.files|)
  {}

  lemma SenderInv(x: Setup, y: System)
    requires SystemInv(x, y)
    ensures SetupOk(x) && S.ConfigOk(x.c) && W.Inv(x.c, y.s) && Count(x) <= 0x1_0000
    ensures x.c.manifest.transferId != [] && y.s.pc.Activate? ==> y.s.plan.applied.Some?
  {
    hide SafePath.EntriesOk, SafePath.DistinctNames, SafePath.SizeSum;
    assert SafePath.ManifestOk(x.c.manifest);
  }

  lemma ActReach(c: S.Config, s: S.State, e: S.Event)
    requires W.Inv(c, s) && !e.Inbound?
    ensures var t := S.Apply(c, s, e);
            || (t.tally.active == s.tally.active && t.completeSent == s.completeSent)
            || (s.pc.Activate?
                && (if s.pc.file < |c.manifest.files| then t.tally.active == s.pc.file && t.completeSent == s.completeSent
                                   else s.pc.file == |c.manifest.files| && t.completeSent && t.tally.active == s.tally.active))
  {
    hide W.Inv, S.Enumerates, Committed, S.LoopStep, S.AdmitBlock, S.Resend, S.SendStep;
    assert S.ConfigOk(c) && (s.pc.Activate? ==> s.pc.file <= |c.manifest.files|) by { RunFacts(c, s); }
  }
}
