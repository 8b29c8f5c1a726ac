/** Which blocks a sender sends: over every run the blocks it skips and the blocks it sends
    make up each file it has passed, with none in both. */
module SenderCoverage {
  import opened Wire
  import opened Geometry
  import opened SenderModel
  import W = SenderWindow

  /** Block `b` of file `f` has been sent, down to its hash. */
  predicate SentBlock(sent: seq<Msg>, f: int, b: int) {
    exists i :: 0 <= i < |sent| && sent[i].BlockHash? && sent[i].hashFile == f && sent[i].hashBlock == b
  }

  /** Nothing below a mark and nothing past the end is ever sent. */
  predicate NoneHeldSent(c: Config, p: Plan, sent: seq<Msg>) {
    forall i :: 0 <= i < |sent| && sent[i].BlockHash? ==>
      && ValidFile(c, sent[i].hashFile)
      && Have(p, sent[i].hashFile) <= sent[i].hashBlock && 0 <= sent[i].hashBlock < Pieces(c, sent[i].hashFile)
  }

  /** Every piece from the mark to `hi` has been sent, but for the one in hand. */
  predicate SentUpTo(c: Config, s: State, f: int, hi: int) {
    forall b :: Have(s.plan, f) <= b < hi && 0 <= b ==>
      SentBlock(s.link.sent, f, b) || (s.pc.Sending? && s.tally.active == f && s.pc.block == b)
  }

  predicate FilesSent(c: Config, s: State, n: int) {
    forall f :: 0 <= f < n && ValidFile(c, f) ==> SentUpTo(c, s, f, Pieces(c, f))
  }

  predicate Covered(c: Config, s: State) {
    && NoneHeldSent(c, s.plan, s.link.sent)
    && (s.pc.Begin? || s.pc.AwaitResume? ==> forall i :: 0 <= i < |s.link.sent| ==> !s.link.sent[i].BlockHash?)
    && (s.pc.Activate? ==> FilesSent(c, s, s.pc.file))
    && (s.pc.WaitDone? ==> FilesSent(c, s, |c.manifest.files|))
    && (W.InFile(s.pc) ==> FilesSent(c, s, s.tally.active) && SentUpTo(c, s, s.tally.active, s.pc.next))
  }

  /** Sealing a message that is no block hash, without moving. */
  lemma QuietCovered(c: Config, s: State, t: State)
    requires Covered(c, s) && t.pc == s.pc && t.plan == s.plan && t.tally.active == s.tally.active
    requires s.link.sent <= t.link.sent
    requires forall i :: |s.link.sent| <= i < |t.link.sent| ==> !t.link.sent[i].BlockHash?
    ensures Covered(c, t)
  {
    hide Pieces, ValidFile;
    forall f, b | SentBlock(s.link.sent, f, b)
      ensures SentBlock(t.link.sent, f, b)
    {
      SentGrows(s.link.sent, t.link.sent, f, b);
    }
    hide SentBlock;
  }

  lemma SentGrows(a: seq<Msg>, b: seq<Msg>, f: int, k: int)
    requires SentBlock(a, f, k) && a <= b
    ensures SentBlock(b, f, k)
  {
    var i :| 0 <= i < |a| && a[i].BlockHash? && a[i].hashFile == f && a[i].hashBlock == k;
    assert b[i] == a[i];
  }

  /** Moving without sealing, when nothing is in hand. */
  lemma MoveCovered(c: Config, s: State, t: State)
    requires Covered(c, s) && !s.pc.Sending? && t.plan == s.plan && t.link == s.link
    requires !t.pc.Begin? && !t.pc.AwaitResume?
    requires t.pc.Activate? ==> FilesSent(c, s, t.pc.file)
    requires t.pc.WaitDone? ==> FilesSent(c, s, |c.manifest.files|)
    requires W.InFile(t.pc) ==> FilesSent(c, s, t.tally.active)
    requires W.InFile(t.pc) ==>
               forall b :: Have(s.plan, t.tally.active) <= b < t.pc.next && 0 <= b ==>
                 SentBlock(s.link.sent, t.tally.active, b) || (t.pc.Sending? && t.pc.block == b)
    ensures Covered(c, t)
  {
    hide Pieces, ValidFile, SentBlock;
  }

  /** Returning, or pushing something that is no hash on the way there. */
  lemma ReturnCovered(c: Config, s: State, t: State)
    requires Covered(c, s) && t.pc.Returned? && t.plan == s.plan && s.link.sent <= t.link.sent
    requires forall i :: |s.link.sent| <= i < |t.link.sent| ==> !t.link.sent[i].BlockHash?
    ensures Covered(c, t)
  {
    hide Pieces, ValidFile, SentBlock;
  }

  // ---------------------------------------------------------------- steps of Run

  lemma LoopCovered(c: Config, s: State)
    requires W.Inv(c, s) && Covered(c, s) && s.pc.Loop?
    ensures Covered(c, LoopStep(c, s, s.pc.next))
  {
    hide W.Inv, Covered, SentBlock, Pieces, W.EmptyWindow;
    W.LoopFacts(c, s);
    var t := LoopStep(c, s, s.pc.next);
    LoopSent(c, s);
    LoopMoves(c, s);
    if t.pc.Returned? { ReturnCovered(c, s, t); } else { MoveCovered(c, s, t); }
  }

  lemma LoopSent(c: Config, s: State)
    requires Covered(c, s) && s.pc.Loop?
    ensures FilesSent(c, s, s.tally.active)
    ensures forall b :: Have(s.plan, s.tally.active) <= b < s.pc.next && 0 <= b ==> SentBlock(s.link.sent, s.tally.active, b)
  {
    hide SentBlock, Pieces, ValidFile;
  }

  /** Where one pass of the loop may lead. */
  lemma LoopMoves(c: Config, s: State)
    requires ValidFile(c, s.tally.active) && s.pc.Loop?
    ensures var t := LoopStep(c, s, s.pc.next);
            && t.link == s.link && t.tally == s.tally && t.plan == s.plan
            && (t.pc.Returned?
                || (t.pc.Activate? && t.pc.file == s.tally.active + 1 && Pieces(c, s.tally.active) <= s.pc.next)
                || ((t.pc.Loop? || t.pc.Admitted? || t.pc.Retrying?) && t.pc.next == s.pc.next)
                || (t.pc == Loop(s.pc.next + 1) && s.pc.next < Have(s.plan, s.tally.active)))
  {
    hide Pieces, ValidFile;
  }

  lemma AdmitCovered(c: Config, s: State)
    requires W.Inv(c, s) && Covered(c, s) && s.pc.Admitted? && ValidFile(c, s.tally.active)
    ensures Covered(c, AdmitBlock(c, s, s.pc.next))
  {
    hide W.Inv, SentBlock, Pieces, Piece, ValidFile;
    var t := AdmitBlock(c, s, s.pc.next);
    if t.pc.Returned? { ReturnCovered(c, s, t); } else { MoveCovered(c, s, t); }
  }

  lemma ResendCovered(c: Config, s: State)
    requires Covered(c, s) && s.pc.Retrying?
    ensures Covered(c, Resend(c, s, s.pc.block, s.pc.next))
  {
    hide SentBlock, Pieces, ValidFile;
    var t := Resend(c, s, s.pc.block, s.pc.next);
    if t.pc.Returned? { ReturnCovered(c, s, t); } else { MoveCovered(c, s, t); }
  }

  lemma SendingFacts(c: Config, s: State)
    requires W.Inv(c, s) && s.pc.Sending?
    ensures ValidFile(c, s.tally.active) && 0 <= s.tally.active && 0 <= s.pc.block
    ensures Have(s.plan, s.tally.active) <= s.pc.block < Pieces(c, s.tally.active)
  {
    hide Blocks, BlockOf, Committed, W.Behind, W.Weigh;
  }

  /** The hash of the block in hand is sealed, and nothing is in hand any more. */
  lemma HashCovered(c: Config, s: State, t: State, m: Msg)
    requires W.Inv(c, s) && Covered(c, s) && s.pc.Sending? && t.plan == s.plan && t.tally == s.tally
    requires m.BlockHash? && m.hashFile == s.tally.active && m.hashBlock == s.pc.block
    requires t.link.sent == s.link.sent + [m]
    requires t.pc.Returned? || (t.pc.Loop? && t.pc.next == s.pc.next)
    ensures Covered(c, t)
  {
    hide W.Inv, Pieces, ValidFile;
    SendingFacts(c, s);
    var a, b := s.link.sent, t.link.sent;
    forall f, k | SentBlock(a, f, k) ensures SentBlock(b, f, k) { SentGrows(a, b, f, k); }
    assert b[|a|] == m && SentBlock(b, s.tally.active, s.pc.block);
    assert NoneHeldSent(c, t.plan, b);
    hide SentBlock, NoneHeldSent;
  }

  lemma SendCovered(c: Config, s: State, sendOk: bool)
    requires W.Inv(c, s) && Covered(c, s) && s.pc.Sending? && 0 < c.frameSize
    ensures Covered(c, SendStep(c, s, sendOk))
  {
    hide W.Inv, Covered, Fragment;
    SendingFacts(c, s);
    var t := SendStep(c, s, sendOk);
    if s.pc.off >= |s.pc.bytes| {
      HashCovered(c, s, t, BlockHash(s.tally.active, s.pc.block, Sha(s.pc.bytes)));
    } else if t.pc.Returned? {
      ReturnCovered(c, s, t);
    } else {
      FragmentCovered(c, s, t);
    }
  }

  lemma FragmentCovered(c: Config, s: State, t: State)
    requires Covered(c, s) && s.pc.Sending? && t.pc.Sending? && t.pc.block == s.pc.block && t.pc.next == s.pc.next
    requires t.plan == s.plan && t.tally == s.tally && s.link.sent <= t.link.sent
    requires forall i :: |s.link.sent| <= i < |t.link.sent| ==> !t.link.sent[i].BlockHash?
    ensures Covered(c, t)
  {
    hide Pieces, ValidFile;
    forall f, b | SentBlock(s.link.sent, f, b)
      ensures SentBlock(t.link.sent, f, b)
    {
      SentGrows(s.link.sent, t.link.sent, f, b);
    }
    hide SentBlock;
  }

  lemma StartCovered(c: Config, s: State, t: State)
    requires Covered(c, s) && (s.pc.Begin? || s.pc.AwaitResume?) && s.link.sent <= t.link.sent
    requires forall i :: |s.link.sent| <= i < |t.link.sent| ==> !t.link.sent[i].BlockHash?
    requires t.pc.Begin? || t.pc.AwaitResume? || t.pc == Activate(0) || t.pc.Returned?
    ensures Covered(c, t)
  {
    hide Pieces, ValidFile, SentBlock;
  }

  lemma ActivateCovered(c: Config, s: State, sendOk: bool)
    requires W.Inv(c, s) && Covered(c, s) && s.pc.Activate?
    ensures ConfigOk(c) && Covered(c, RunStep(c, s, sendOk))
  {
    hide W.Inv, Pieces, ValidFile, SentBlock, Committed, CompletionDigest;
    ActivateFacts(c, s);
    var t := RunStep(c, s, sendOk);
    if t.pc.Returned? {
      ReturnCovered(c, s, t);
    } else if s.pc.file >= |c.manifest.files| {
      var u := s.(pc := WaitDone);
      MoveCovered(c, s, u);
      QuietCovered(c, u, t);
    } else {
      MoveCovered(c, s, t);
    }
  }

  lemma ActivateFacts(c: Config, s: State)
    requires W.Inv(c, s)
    ensures ConfigOk(c) && (s.pc.Activate? ==> s.pc.file <= |c.manifest.files|)
    ensures s.pc.Admitted? || s.pc.Loop? ==> ValidFile(c, s.tally.active)
  {
    hide Blocks, BlockOf, Committed, W.Behind, W.Weigh;
  }

  lemma RunCovered(c: Config, s: State, sendOk: bool)
    requires W.Inv(c, s) && Covered(c, s)
    ensures ConfigOk(c) && Covered(c, RunStep(c, s, sendOk))
  {
    hide W.Inv, Covered, LoopStep, AdmitBlock, Resend, SendStep, ActivateFile, CompletionDigest;
    ActivateFacts(c, s);
    var t := RunStep(c, s, sendOk);
    match s.pc {
      case Begin => StartCovered(c, s, t);
      case AwaitResume => StartCovered(c, s, t);
      case Activate(_) => ActivateCovered(c, s, sendOk);
      case Loop(_) => LoopCovered(c, s);
      case Admitted(_) => AdmitCovered(c, s);
      case Retrying(_, _) => ResendCovered(c, s);
      case Sending(_, _, _, _) => SendCovered(c, s, sendOk);
      case WaitDone => if t.pc.Returned? { ReturnCovered(c, s, t); }
      case Returned(_) =>
    }
  }

  // ---------------------------------------------------------------- everything else

  lemma InboundCovered(c: Config, s: State, frame: Frame)
    requires W.Inv(c, s) && Covered(c, s)
    ensures Covered(c, Handle(c, s, frame))
  {
    hide W.Inv, Covered, BuildPlan, QueueRetry;
    var t := Handle(c, s, frame);
    PlanChanges(c, s, frame);
    if t.plan == s.plan { QuietCovered(c, s, t); } else { StartCovered(c, s, t); }
  }

  /** A plan is set only before anything has been streamed. */
  lemma PlanChanges(c: Config, s: State, frame: Frame)
    requires W.Inv(c, s)
    ensures Handle(c, s, frame).plan == s.plan || s.pc.Begin? || s.pc.AwaitResume?
    ensures Handle(c, s, frame).tally.active == s.tally.active
  {
    hide Blocks, BlockOf, Committed, W.Behind, W.Weigh, ScanMarks, W.QueueOk, W.WindowOk, W.PlanOk;
  }

  lemma ApplyCovered(c: Config, s: State, e: Event)
    requires W.Inv(c, s) && Covered(c, s)
    ensures ConfigOk(c) && Covered(c, Apply(c, s, e))
  {
    hide W.Inv, Covered, RunStep, Handle, Enumerates, CompletionDigest, ConfigOk;
    assert ConfigOk(c) by { ActivateFacts(c, s); }
    var t := Apply(c, s, e);
    match e {
      case Advance(sendOk) => RunCovered(c, s, sendOk);
      case Inbound(frame) => InboundCovered(c, s, frame);
      case SourceError => if t.pc.Returned? { ReturnCovered(c, s, t); }
      case _ => QuietCovered(c, s, t);
    }
  }

  lemma {:induction false} ReachableCovered(c: Config, es: seq<Event>)
    requires ConfigOk(c)
    ensures Covered(c, Exec(c, es))
    decreases |es|
  {
    hide Apply, W.Inv, Covered, ConfigOk;
    if es == [] {
      InitCovered(c);
    } else {
      ReachableCovered(c, es[..|es| - 1]);
      W.ReachableKeepsInv(c, es[..|es| - 1]);
      ApplyCovered(c, Exec(c, es[..|es| - 1]), es[|es| - 1]);
    }
  }

  lemma InitCovered(c: Config)
    ensures Covered(c, Init())
  {}

  /** Whether the sender is done with file `f`. */
  predicate Passed(c: Config, s: State, f: int) {
    || (s.pc.Activate? && f < s.pc.file) || s.pc.WaitDone? || (W.InFile(s.pc) && f < s.tally.active)
  }

  /** In every run: of a file the sender has passed it sent exactly the blocks from the resume
      mark on, and no block below a mark of any file was ever sent. So what is skipped and what
      is sent partition each file. */
  lemma BlocksPartition(c: Config, es: seq<Event>, f: int, b: nat)
    requires ConfigOk(c) && 0 <= f < |c.manifest.files| && ValidFile(c, f) && b < Pieces(c, f)
    ensures var s := Exec(c, es);
            && (SentBlock(s.link.sent, f, b) ==> Have(s.plan, f) <= b)
            && (Passed(c, s, f) ==> (SentBlock(s.link.sent, f, b) <==> Have(s.plan, f) <= b))
  {
    hide Exec, Pieces, ConfigOk;
    ReachableCovered(c, es);
    W.ReachableKeepsInv(c, es);
    var s := Exec(c, es);
    assert Passed(c, s, f) && s.pc.Sending? ==> f < s.tally.active;
    hide W.Inv;
    if Passed(c, s, f) { assert SentUpTo(c, s, f, Pieces(c, f)); }
  }
}
