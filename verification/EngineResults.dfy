/** What the transfer engine delivers, over every run against any network. */
module EngineResults {
  import opened Wire
  import opened Geometry
  import opened ReceiverSafety
  import opened Engine
  import S = SenderModel
  import W = SenderWindow
  import R = ReceiverModel

  // ---------------------------------------------------------------- what the sinks hold

  /** In every run: each sink holds whole blocks only, the persisted prefix followed by the
      sender's stream; every block was written once, in order, at its own offset; a finished
      file is the very byte string the manifest digest was computed over; and every
      acknowledged block had been committed. */
  lemma SinksHoldCommittedBlocks(x: Setup, es: seq<Event>)
    requires SetupOk(x)
    ensures var r := Exec(x, es).r;
            && r.prog.fileIdx <= Count(x)
            && (forall f :: 0 <= f < Count(x) ==> FromStream(x, f, R.Stored(r.out, f)))
            && (forall f :: 0 <= f < r.prog.fileIdx ==> R.Stored(r.out, f) == Entry(x, f).digest.pre)
            && (r.prog.fileOpen ==>
                  && r.prog.fileIdx < Count(x) && Shaped(Entry(x, r.prog.fileIdx)) && 0 <= r.prog.nextBlock
                  && |R.Stored(r.out, r.prog.fileIdx)|
                     == Pos(Entry(x, r.prog.fileIdx).size, Entry(x, r.prog.fileIdx).blockSize, r.prog.nextBlock))
            && (forall i :: 0 <= i < |r.out.writes| ==> WriteOk(x, r.prog, r.out.writes[i]))
            && (forall i, j :: 0 <= i < j < |r.out.writes| ==> Precedes(r.out.writes[i], r.out.writes[j]))
            && (forall m :: m in r.link.sent && m.Ack? ==> IsCommitted(x, r.prog, m.ackFile, m.ackBlock))
  {
    ReachableKeepsInv(x, es);
    var r := Exec(x, es).r;
    hide Exec, W.Inv, S.Piece, Pos;
    forall f | 0 <= f < Count(x)
      ensures FromStream(x, f, R.Stored(r.out, f))
      ensures f < r.prog.fileIdx ==> R.Stored(r.out, f) == Entry(x, f).digest.pre
    {
      assert SinkOk(x, r.prog, R.Stored(r.out, f), f);
    }
    if r.prog.fileOpen { assert SinkOk(x, r.prog, R.Stored(r.out, r.prog.fileIdx), r.prog.fileIdx); }
    forall m | m in r.link.sent && m.Ack? ensures IsCommitted(x, r.prog, m.ackFile, m.ackBlock) {
      var i :| 0 <= i < |r.link.sent| && r.link.sent[i] == m;
      assert AckOk(x, r.prog, r.out, r.link.sent[i]);
    }
  }

  /** The source did not change between the two passes, and what was persisted earlier came
      from the same bytes. */
  predicate Stable(x: Setup) {
    forall f :: 0 <= f < Count(x) && f < |x.c.streams| ==>
      && |x.c.streams[f]| == Entry(x, f).size
      && Sha(x.c.streams[f]) == Entry(x, f).digest
      && Stored0(x, f) <= x.c.streams[f]
  }

  /** With a stable source each sink is a prefix of the source file. */
  lemma StableSinksArePrefixes(x: Setup, es: seq<Event>, f: nat)
    requires SetupOk(x) && Stable(x) && f < Count(x)
    ensures R.Stored(Exec(x, es).r.out, f) <= x.c.streams[f]
  {
    SinksHoldCommittedBlocks(x, es);
    var content, s0, stream := R.Stored(Exec(x, es).r.out, f), Stored0(x, f), x.c.streams[f];
    hide Exec, SetupOk;
    assert FromStream(x, f, content);
    if |content| > |s0| {
      assert content == content[..|s0|] + content[|s0|..];
      assert stream[..|content|] == stream[..|s0|] + stream[|s0|..|content|];
    }
  }

  // ---------------------------------------------------------------- success

  /** If `Run` returns success, the receiver verified every file against its digest, went
      past the last file and closed its destination. */
  lemma SuccessMeansDelivered(x: Setup, es: seq<Event>)
    requires SetupOk(x) && Exec(x, es).s.pc == S.Returned(true)
    ensures var r := Exec(x, es).r;
            && r.out.closed && r.prog.fileIdx == Count(x)
            && (forall f :: 0 <= f < Count(x) ==> R.Stored(r.out, f) == Entry(x, f).digest.pre)
  {
    ReachableKeepsInv(x, es);
    SinksHoldCommittedBlocks(x, es);
    var y := Exec(x, es);
    hide Exec;
    assert y.s.outcome == Succeeded;
  }

  // ---------------------------------------------------------------- resume agreement

  /** Every plan the sender follows is the set of marks the receiver advertised, and those
      are exactly the blocks the destination held when the transfer began. */
  lemma PlanMatchesReceiver(x: Setup, s: S.State, r: R.State, f: int)
    requires SetupOk(x) && W.Inv(x.c, s) && Agreed(x, s, r) && 0 <= f < Count(x)
    requires x.c.manifest.transferId == [] || s.plan.applied.Some?
    ensures S.Have(s.plan, f) == Held(x, f)
  {
    hide R.SeedOk, HostHonest;
    if s.plan.applied.Some? {
      assert Advert(x).files[f].idx == f;
      assert W.Follows(s.plan.have, s.plan.applied.value.files);
      if Resuming(x) { HeldListed(x, f); }
      assert Advert(x).files[f] == ResumeFileState(f, Held(x, f));
    }
  }

  lemma HeldListed(x: Setup, f: int)
    requires SetupOk(x) && 0 <= f < Count(x) && Resuming(x)
    ensures f in x.host.value.files
  {
    assert HostHonest(x, f);
  }

  /** The reused-byte baseline as the sender adds it up. */
  function SenderReused(c: S.Config, p: S.Plan, n: nat): int
    requires n <= |c.manifest.files|
  {
    if n == 0 then 0 else SenderReused(c, p, n - 1) + Committed(c.manifest.files[n - 1], S.Have(p, n - 1))
  }

  lemma HeldMatches(x: Setup, t: R.Terms, f: nat)
    requires SetupOk(x) && f < Count(x) && t.active == (if Resuming(x) then x.host else None)
    ensures R.HeldBlocks(t, Entry(x, f)) == Held(x, f) >= 0
    ensures Held(x, f) == 0 ==> Committed(Entry(x, f), Held(x, f)) == 0
  {
    hide R.SeedOk, Blocks;
    assert HostHonest(x, f) && Entry(x, f).idx == f;
    if Held(x, f) == 0 { CommittedIsPos(Entry(x, f), 0); }
  }

  lemma {:induction false} BaselinesAgree(x: Setup, s: S.State, t: R.Terms, n: nat)
    requires SetupOk(x) && n <= Count(x)
    requires t.active == (if Resuming(x) then x.host else None)
    requires forall f :: 0 <= f < Count(x) ==> S.Have(s.plan, f) == Held(x, f)
    ensures SenderReused(x.c, s.plan, n) == R.ReusedBytes(t, x.c.manifest.files[..n])
  {
    hide SetupOk, Resuming, Held, Committed, R.HeldBlocks;
    if n > 0 {
      BaselinesAgree(x, s, t, n - 1);
      var files := x.c.manifest.files[..n];
      assert files[..n - 1] == x.c.manifest.files[..n - 1];
      HeldMatches(x, t, n - 1);
    }
  }

  /** In every run, once the sender is past the negotiation its plan is exactly what the
      receiver's destination held, and the baseline it adds up is the one the receiver computes
      from its own terms, and has recorded if it advertised them. */
  lemma NegotiationAgrees(x: Setup, es: seq<Event>)
    requires SetupOk(x)
    requires var pc := Exec(x, es).s.pc; !pc.Begin? && !pc.AwaitResume? && !pc.Returned?
    ensures var s, t := Exec(x, es).s, Exec(x, es).r.terms;
            && (forall f :: 0 <= f < Count(x) ==> S.Have(s.plan, f) == Held(x, f))
            && SenderReused(x.c, s.plan, Count(x)) == R.ReusedBytes(t, x.c.manifest.files)
            && (if x.c.manifest.transferId == [] then t.active == None
                else t.advertised == s.plan.applied && t.advertised == Some(Advert(x))
                     && t.reused == SenderReused(x.c, s.plan, Count(x)))
  {
    hide SystemInv, SetupOk, Held, Resuming, Exec, Advert;
    ReachableKeepsInv(x, es);
    var y := Exec(x, es);
    PlanMatches(x, y);
    TermsFacts(x, y);
    BaselinesAgree(x, y.s, y.r.terms, Count(x));
    assert x.c.manifest.files[..Count(x)] == x.c.manifest.files;
  }

  /** The receiver's terms when the sender is past the negotiation. */
  lemma TermsFacts(x: Setup, y: System)
    requires SystemInv(x, y) && !y.s.pc.Begin? && !y.s.pc.AwaitResume? && !y.s.pc.Returned?
    ensures var t := y.r.terms;
            && t.active == (if Resuming(x) then x.host else None)
            && (if x.c.manifest.transferId == [] then t.active == None
                else && t.advertised == y.s.plan.applied && t.advertised == Some(Advert(x))
                     && t.reused == R.ReusedBytes(t, x.c.manifest.files))
  {
    assert TermsOk(x, y.r.terms) && Agreed(x, y.s, y.r);
    assert x.c.manifest.transferId != [] ==> y.s.plan.applied.Some?;
    hide SystemInv, R.SeedOk, Advert, R.ReusedBytes;
  }

  // ---------------------------------------------------------------- acknowledged bytes

  function SinkTotal(x: Setup, o: R.Output, n: nat): nat
  {
    if n == 0 then 0 else SinkTotal(x, o, n - 1) + |R.Stored(o, n - 1)|
  }

  /** Pieces outside `keys` that lie below block `k` and fit the manifest weigh no more than
      the blocks from `lo` to `k`. */
  lemma {:induction false} AckedBound(x: Setup, f: nat, keys: set<int>, lo: nat, hi: nat, k: nat)
    requires f < Count(x) && S.ValidFile(x.c, f)
    requires forall b :: lo <= b < hi && b !in keys ==>
               b < k && |S.Piece(x.c, f, b)|
                        == Pos(Entry(x, f).size, Entry(x, f).blockSize, b + 1) - Pos(Entry(x, f).size, Entry(x, f).blockSize, b)
    ensures var n, bs := Entry(x, f).size, Entry(x, f).blockSize;
            && (k <= lo ==> W.Acked(x.c, f, keys, lo, hi) == 0)
            && (lo <= k ==> Pos(n, bs, lo) + W.Acked(x.c, f, keys, lo, hi) <= Pos(n, bs, k))
    decreases hi
  {
    hide S.Piece, Blocks, Pos;
    var n, bs := Entry(x, f).size, Entry(x, f).blockSize;
    if lo <= k { PosMonotone(n, bs, lo, k); }
    if hi > lo {
      AckedBound(x, f, keys, lo, hi - 1, k);
      if hi - 1 !in keys && hi - 1 < k {
        AckedBound(x, f, keys, lo, hi - 1, hi - 1);
        PosMonotone(n, bs, hi, k);
      }
    }
  }

  /** How much of file `f` is in its sink, in terms of blocks. */
  lemma SinkLength(x: Setup, r: R.State, f: nat)
    requires SetupOk(x) && SinksOk(x, r.prog, r.out) && f < Count(x)
    ensures var e, n := Entry(x, f), |R.Stored(r.out, f)|;
            && Shaped(e)
            && (f < r.prog.fileIdx ==> n == e.size)
            && (f == r.prog.fileIdx && r.prog.fileOpen ==>
                  0 <= r.prog.nextBlock && n == Pos(e.size, e.blockSize, r.prog.nextBlock))
            && (f > r.prog.fileIdx || (f == r.prog.fileIdx && !r.prog.fileOpen) ==>
                  0 <= Held(x, f) && n == Pos(e.size, e.blockSize, Held(x, f)))
            && 0 <= Held(x, f) <= e.blocks && Pos(e.size, e.blockSize, Held(x, f)) <= n <= e.size
  {
    var e := Entry(x, f);
    assert HostHonest(x, f);
    assert SinkOk(x, r.prog, R.Stored(r.out, f), f);
    PosMonotone(e.size, e.blockSize, Held(x, f), Held(x, f));
    hide Held, Resuming, Blocks;
    if f == r.prog.fileIdx && r.prog.fileOpen {
      PosMonotone(e.size, e.blockSize, r.prog.nextBlock, r.prog.nextBlock);
    }
  }

  /** The parts of the invariant the byte counts rest on. */
  lemma Facts(x: Setup, y: System)
    requires SystemInv(x, y)
    ensures SetupOk(x) && S.ConfigOk(x.c) && SinksOk(x, y.r.prog, y.r.out) && W.PlanOk(x.c, y.s.plan)
    ensures Linked(x, y.s, y.r.prog) && W.Position(x.c, y.s)
  {}

  /** How far the committed blocks of a file reach, as a block index. */
  function Reach(x: Setup, p: R.Progress, f: nat): int
    requires f < Count(x)
  {
    if f < p.fileIdx then Entry(x, f).blocks
    else if f == p.fileIdx && p.fileOpen && p.nextBlock > Held(x, f) then p.nextBlock
    else Held(x, f)
  }

  lemma ReachInSink(x: Setup, r: R.State, f: nat)
    requires SetupOk(x) && SinksOk(x, r.prog, r.out) && f < Count(x)
    ensures Shaped(Entry(x, f)) && 0 <= Held(x, f) <= Reach(x, r.prog, f)
    ensures Pos(Entry(x, f).size, Entry(x, f).blockSize, Reach(x, r.prog, f)) <= |R.Stored(r.out, f)|
    ensures PiecesFit(x, f, Reach(x, r.prog, f))
  {
    hide SetupOk, Held, Blocks, Pos, SinksOk;
    SinkLength(x, r, f);
    assert SinkOk(x, r.prog, R.Stored(r.out, f), f) by { OneSink(x, r, f); }
    BlockCountBound(Entry(x, f).size, Entry(x, f).blockSize);
  }

  lemma OneSink(x: Setup, r: R.State, f: nat)
    requires SetupOk(x) && SinksOk(x, r.prog, r.out) && f < Count(x)
    ensures S.ConfigOk(x.c) && SinkOk(x, r.prog, R.Stored(r.out, f), f)
  {
    hide SinkOk, HostHonest;
  }

  /** If every piece outside `keys` is committed, those pieces are in the sink. */
  lemma FileCovered(x: Setup, r: R.State, f: nat, keys: set<int>, hi: nat)
    requires SetupOk(x) && SinksOk(x, r.prog, r.out) && f < Count(x) && S.ValidFile(x.c, f) && 0 <= Held(x, f)
    requires forall b :: Held(x, f) <= b < hi && b !in keys ==> IsCommitted(x, r.prog, f, b)
    ensures Committed(Entry(x, f), Held(x, f)) + W.Acked(x.c, f, keys, Held(x, f), hi) <= |R.Stored(r.out, f)|
  {
    hide SetupOk, Held, Blocks, Pos, SinksOk, Committed, S.Piece;
    ReachInSink(x, r, f);
    CommittedIsPos(Entry(x, f), Held(x, f));
    var k: nat := Reach(x, r.prog, f);
    AckedBound(x, f, keys, Held(x, f), hi, k);
  }

  /** What the sender counts for a file it has passed is in the file's sink. */
  lemma PassedFileCovered(x: Setup, y: System, g: nat)
    requires SystemInv(x, y) && g < Count(x) && S.Have(y.s.plan, g) == Held(x, g)
    requires DoneUpTo(x, y.s, y.r.prog, g + 1) && S.ValidFile(x.c, g)
    ensures W.FileTotal(x.c, y.s.plan, g) <= |R.Stored(y.r.out, g)|
  {
    hide SystemInv, SetupOk, Held, SinksOk, Blocks, S.Pieces, W.PlanOk, Linked, W.Position, S.ConfigOk, Committed;
    Facts(x, y);
    SinkLength(x, y.r, g);
    FileCovered(x, y.r, g, {}, S.Pieces(x.c, g));
  }

  lemma {:induction false} PassedFilesCovered(x: Setup, y: System, n: nat)
    requires SystemInv(x, y) && n <= Count(x) && DoneUpTo(x, y.s, y.r.prog, n) && S.ConfigOk(x.c)
    requires forall f :: 0 <= f < Count(x) ==> S.Have(y.s.plan, f) == Held(x, f)
    ensures W.Behind(x.c, y.s.plan, n) <= SinkTotal(x, y.r.out, n)
  {
    hide SystemInv, W.FileTotal, Held, IsCommitted, S.Pieces;
    if n > 0 {
      assert DoneUpTo(x, y.s, y.r.prog, n - 1);
      PassedFilesCovered(x, y, n - 1);
      PassedFileCovered(x, y, n - 1);
    }
  }

  /** The active file's acknowledged bytes are in its sink. */
  lemma ActiveFileCovered(x: Setup, y: System)
    requires SystemInv(x, y) && W.InFile(y.s.pc)
    requires S.Have(y.s.plan, y.s.tally.active) == Held(x, y.s.tally.active)
    ensures 0 <= y.s.tally.active < Count(x)
    ensures y.s.tally.fileAcknowledged <= |R.Stored(y.r.out, y.s.tally.active)|
  {
    hide SystemInv, SetupOk, Held, SinksOk, Blocks, Committed, W.PlanOk, S.Pieces, W.WindowOk, W.Acked;
    var s, p, f := y.s, y.r.prog, y.s.tally.active;
    Facts(x, y);
    assert S.ValidFile(x.c, f) && W.TallyOk(x.c, s) && DoneInFile(x, s, p, s.pc.next);
    hide W.Position, Linked;
    SinkLength(x, y.r, f);
    FileCovered(x, y.r, f, s.win.inflight.Keys, s.pc.next);
  }

  lemma {:induction false} SinkTotalMonotone(x: Setup, o: R.Output, m: nat, n: nat)
    requires m <= n
    ensures SinkTotal(x, o, m) <= SinkTotal(x, o, n)
  {
    if m < n { SinkTotalMonotone(x, o, m, n - 1); }
  }

  lemma PlanMatches(x: Setup, y: System)
    requires SystemInv(x, y) && !y.s.pc.Begin? && !y.s.pc.AwaitResume? && !y.s.pc.Returned?
    ensures forall f :: 0 <= f < Count(x) ==> S.Have(y.s.plan, f) == Held(x, f)
  {
    assert x.c.manifest.transferId == [] || y.s.plan.applied.Some?;
    forall f | 0 <= f < Count(x) ensures S.Have(y.s.plan, f) == Held(x, f) {
      PlanMatchesReceiver(x, y.s, y.r, f);
    }
  }

  lemma TallyFacts(x: Setup, y: System)
    requires SystemInv(x, y)
    ensures W.InFile(y.s.pc) ==>
              && S.ConfigOk(x.c) && 0 <= y.s.tally.active < Count(x)
              && y.s.tally.acknowledged == W.Behind(x.c, y.s.plan, y.s.tally.active) + y.s.tally.fileAcknowledged
              && DoneUpTo(x, y.s, y.r.prog, y.s.tally.active)
    ensures y.s.pc.Activate? ==>
              && S.ConfigOk(x.c) && y.s.pc.file <= Count(x)
              && y.s.tally.acknowledged == W.Behind(x.c, y.s.plan, y.s.pc.file) && DoneUpTo(x, y.s, y.r.prog, y.s.pc.file)
    ensures y.s.pc.WaitDone? ==>
              && S.ConfigOk(x.c)
              && y.s.tally.acknowledged == W.Behind(x.c, y.s.plan, Count(x)) && DoneUpTo(x, y.s, y.r.prog, Count(x))
    ensures y.s.pc.Begin? || y.s.pc.AwaitResume? ==> y.s.tally.acknowledged == 0
  {
    Facts(x, y);
    hide SystemInv, SetupOk, SinksOk, W.PlanOk, DoneUpTo, DoneInFile, W.WindowOk, W.PcOk;
  }

  lemma AckedCoveredInFile(x: Setup, y: System)
    requires SystemInv(x, y) && W.InFile(y.s.pc)
    ensures y.s.tally.acknowledged <= SinkTotal(x, y.r.out, Count(x))
  {
    hide SystemInv, Held, DoneUpTo, S.ConfigOk, W.FileTotal;
    TallyFacts(x, y);
    PlanMatches(x, y);
    ActiveFileCovered(x, y);
    PassedFilesCovered(x, y, y.s.tally.active);
    SinkTotalMonotone(x, y.r.out, y.s.tally.active + 1, Count(x));
  }

  lemma AckedCoveredBetween(x: Setup, y: System)
    requires SystemInv(x, y) && (y.s.pc.Activate? || y.s.pc.WaitDone?)
    ensures y.s.tally.acknowledged <= SinkTotal(x, y.r.out, Count(x))
  {
    hide SystemInv, Held, DoneUpTo, S.ConfigOk, W.FileTotal;
    TallyFacts(x, y);
    PlanMatches(x, y);
    var n := if y.s.pc.Activate? then y.s.pc.file else Count(x);
    PassedFilesCovered(x, y, n);
    SinkTotalMonotone(x, y.r.out, n, Count(x));
  }

  lemma AckedCovered(x: Setup, y: System)
    requires SystemInv(x, y) && !y.s.pc.Returned?
    ensures y.s.tally.acknowledged <= SinkTotal(x, y.r.out, Count(x))
  {
    hide SystemInv;
    if W.InFile(y.s.pc) { AckedCoveredInFile(x, y); }
    else if y.s.pc.Activate? || y.s.pc.WaitDone? { AckedCoveredBetween(x, y); }
    else { TallyFacts(x, y); }
  }

  /** A sender that has returned no longer counts anything. */
  lemma ReturnedKeepsTally(c: S.Config, s: S.State, e: S.Event)
    requires W.Inv(c, s) && S.Apply(c, s, e).pc.Returned?
    ensures S.Apply(c, s, e).tally == s.tally
  {
    assert s.pc.Returned? ==> s.outcome != Running;
    assert S.ConfigOk(c);
    hide W.Inv, S.Enumerates, S.Piece, S.Pieces, Committed, S.BuildPlan, S.ConfigOk;
  }

  lemma SinksGrow(x: Setup, r: R.State, t: R.State, f: nat)
    requires SetupOk(x) && SinksOk(x, r.prog, r.out) && SinksOk(x, t.prog, t.out)
    requires R.Advances(r.prog, t.prog) && f < Count(x)
    ensures |R.Stored(r.out, f)| <= |R.Stored(t.out, f)|
  {
    SinkLength(x, r, f);
    SinkLength(x, t, f);
    var e := Entry(x, f);
    hide SetupOk, SinksOk, Held;
    if f == r.prog.fileIdx == t.prog.fileIdx && r.prog.fileOpen {
      PosMonotone(e.size, e.blockSize, r.prog.nextBlock, t.prog.nextBlock);
    }
  }

  lemma {:induction false} SinkTotalGrows(x: Setup, r: R.State, t: R.State, n: nat)
    requires SetupOk(x) && SinksOk(x, r.prog, r.out) && SinksOk(x, t.prog, t.out)
    requires R.Advances(r.prog, t.prog) && n <= Count(x)
    ensures SinkTotal(x, r.out, n) <= SinkTotal(x, t.out, n)
  {
    hide SetupOk, SinksOk, R.Advances;
    if n > 0 {
      SinkTotalGrows(x, r, t, n - 1);
      SinksGrow(x, r, t, n - 1);
    }
  }

  lemma StepAdvances(x: Setup, y: System, e: Event)
    requires SystemInv(x, y)
    ensures R.Advances(y.r.prog, Apply(x, y, e).r.prog)
    ensures Apply(x, y, e).s.pc.Returned? ==> Apply(x, y, e).s.tally == y.s.tally
  {
    assert y.r.terms.manifest == None ==> !y.r.prog.fileOpen;
    assert W.Inv(x.c, y.s) && S.ConfigOk(x.c);
    hide R.Handle, SystemInv, SetupOk, W.Inv, S.ConfigOk;
    match e {
      case SenderStep(e) =>
        if !e.Inbound? && S.Apply(x.c, y.s, e).pc.Returned? { ReturnedKeepsTally(x.c, y.s, e); }
        hide S.Apply;
      case ToSender(j) => if j < |y.r.link.sent| { DeliveryKeepsTally(x.c, y.s, FrameOf(y.r.link, j)); } hide S.Handle;
      case ForgedToSender(claimed) => DeliveryKeepsTally(x.c, y.s, Forged(claimed)); hide S.Handle;
      case _ =>
    }
  }

  lemma DeliveryKeepsTally(c: S.Config, s: S.State, frame: Frame)
    requires W.Inv(c, s)
    ensures S.Handle(c, s, frame).pc.Returned? ==> S.Handle(c, s, frame).tally == s.tally
  {
    assert s.pc.Returned? ==> s.outcome != Running;
    hide W.Inv, S.Dispatch;
  }

  /** In every run the bytes the sender counts as acknowledged are in the receiver's sinks,
      whatever acks were lost, repeated or replayed, and even if the source changed. */
  lemma {:induction false} AckedNeverAheadOfSinks(x: Setup, es: seq<Event>)
    requires SetupOk(x)
    ensures Exec(x, es).s.tally.acknowledged <= SinkTotal(x, Exec(x, es).r.out, Count(x))
    decreases |es|
  {
    hide SystemInv, Apply, SetupOk;
    ReachableKeepsInv(x, es);
    if es == [] || !Exec(x, es).s.pc.Returned? {
      AckedCovered(x, Exec(x, es));
    } else {
      var init, e := es[..|es| - 1], es[|es| - 1];
      AckedNeverAheadOfSinks(x, init);
      ReachableKeepsInv(x, init);
      StepAdvances(x, Exec(x, init), e);
      Facts(x, Exec(x, init));
      Facts(x, Exec(x, es));
      SinkTotalGrows(x, Exec(x, init).r, Exec(x, es).r, Count(x));
    }
  }

  // ---------------------------------------------------------------- counters

  /** The counters an engine accepted are strictly increasing, so no frame is processed twice. */
  predicate Increasing(l: Link) {
    && (forall i, j :: 0 <= i < j < |l.accepted| ==> l.accepted[i] < l.accepted[j])
    && (forall i :: 0 <= i < |l.accepted| ==> l.accepted[i] < l.recvCounter)
  }

  predicate Follows(a: Link, b: Link) {
    && a.sent <= b.sent && a.sealer.used <= b.sealer.used && a.accepted <= b.accepted
    && (Increasing(a) ==> Increasing(b))
  }

  lemma SealsMoreFollows(a: Link, b: Link)
    requires SealsMore(a, b)
    ensures Follows(a, b)
  {}

  lemma AcceptFollows(a: Link, b: Link, counter: nat)
    requires a.recvCounter <= counter
    requires SealsMore(a.(recvCounter := counter + 1, accepted := a.accepted + [counter]), b)
    ensures Follows(a, b)
  {}

  lemma StepFollows(x: Setup, y: System, e: Event)
    requires SetupOk(x) && R.WellFormed(y.r)
    ensures Follows(y.s.link, Apply(x, y, e).s.link) && Follows(y.r.link, Apply(x, y, e).r.link)
  {
    var z := Apply(x, y, e);
    hide SetupOk, R.WellFormed, S.ConfigOk, S.Apply;
    SealsMoreFollows(y.s.link, y.s.link);
    SealsMoreFollows(y.r.link, y.r.link);
    match e {
      case SenderStep(e) =>
        if !e.Inbound? {
          SetupConfig(x);
          SenderSteady(x.c, y.s, e);
          SealsMoreFollows(y.s.link, z.s.link);
        }
      case ToReceiver(i, fault) => if i < |y.s.link.sent| { ReceiverFollows(y.r, FrameOf(y.s.link, i), fault); }
      case ForgedToReceiver(claimed, fault) => ReceiverFollows(y.r, Forged(claimed), fault);
      case ToSender(j) => if j < |y.r.link.sent| { SenderFollows(x.c, y.s, FrameOf(y.r.link, j)); }
      case ForgedToSender(claimed) => SenderFollows(x.c, y.s, Forged(claimed));
      case _ => SealsMoreFollows(y.r.link, z.r.link);
    }
    hide R.Handle, S.Handle;
  }

  lemma ReceiverFollows(r: R.State, frame: Frame, fault: R.Fault)
    requires R.Sane(r)
    ensures Follows(r.link, R.Handle(r, frame, fault).link)
  {
    hide R.Handle, R.Sane;
    var b := R.Handle(r, frame, fault).link;
    if SealsMore(r.link, b) { SealsMoreFollows(r.link, b); } else { AcceptFollows(r.link, b, frame.counter); }
  }

  lemma SenderFollows(c: S.Config, s: S.State, frame: Frame)
    ensures Follows(s.link, S.Handle(c, s, frame).link)
  {
    hide S.Handle;
    var b := S.Handle(c, s, frame).link;
    if b == s.link { SealsMoreFollows(s.link, b); } else { AcceptFollows(s.link, b, frame.counter); }
  }

  lemma FollowsTransitive(a: Link, b: Link, c: Link)
    requires Follows(a, b) && Follows(b, c)
    ensures Follows(a, c)
  {}

  lemma FollowsKeepsIncreasing(a: Link, b: Link)
    requires Follows(a, b) && Increasing(a)
    ensures Increasing(b)
  {}

  /** Every sealed message has a counter, no two have the same one, and the next is unused. */
  predicate UsedOnce(l: Link) {
    && |l.sealer.used| == |l.sent|
    && (forall i, j :: 0 <= i < j < |l.sealer.used| ==> l.sealer.used[i] != l.sealer.used[j])
    && l.sealer.next !in l.sealer.used
  }

  /** Across failed sends, control messages, retransmissions and path changes, in every run
      neither side seals two frames under one counter. */
  lemma SealedOnce(x: Setup, es: seq<Event>)
    requires SetupOk(x)
    ensures UsedOnce(Exec(x, es).s.link) && UsedOnce(Exec(x, es).r.link)
  {
    hide Exec, SetupOk, W.Inv, ReceiverSafety.Inv, AllGenuine, Linked, Agreed;
    ReachableKeepsInv(x, es);
  }

  /** Both directions, every run and every continuation: the counter and the message of a sealed
      frame never change, and accepted counters stay strictly increasing. */
  lemma {:induction false} CountersNeverReused(x: Setup, es: seq<Event>, more: seq<Event>)
    requires SetupOk(x)
    ensures Follows(Exec(x, es).s.link, Exec(x, es + more).s.link)
    ensures Follows(Exec(x, es).r.link, Exec(x, es + more).r.link)
    ensures Increasing(Exec(x, es).s.link) && Increasing(Exec(x, es).r.link)
    decreases |es| + |more|
  {
    hide SetupOk, Apply, R.WellFormed, Follows;
    var all := es + more;
    if more == [] {
      assert es + more == es;
      SealsMoreFollows(Exec(x, es).s.link, Exec(x, es).s.link);
      SealsMoreFollows(Exec(x, es).r.link, Exec(x, es).r.link);
      if es != [] {
        var init := es[..|es| - 1];
        CountersNeverReused(x, init, []);
        StepFollows(x, Exec(x, init), es[|es| - 1]);
        FollowsKeepsIncreasing(Exec(x, init).s.link, Exec(x, es).s.link);
        FollowsKeepsIncreasing(Exec(x, init).r.link, Exec(x, es).r.link);
      }
    } else {
      var init := all[..|all| - 1];
      assert init == es + more[..|more| - 1];
      CountersNeverReused(x, es, more[..|more| - 1]);
      StepFollows(x, Exec(x, init), all[|all| - 1]);
      FollowsTransitive(Exec(x, es).s.link, Exec(x, init).s.link, Exec(x, all).s.link);
      FollowsTransitive(Exec(x, es).r.link, Exec(x, init).r.link, Exec(x, all).r.link);
    }
  }
}
