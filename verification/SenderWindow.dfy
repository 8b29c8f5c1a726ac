/** The sender's window discipline over every run: a bounded window, a retry queue that holds
    each in-flight block at most once, and exact accounting of acknowledged bytes. */
module SenderWindow {
  import opened Wire
  import opened Geometry
  import opened SenderModel

  // ---------------------------------------------------------------- byte accounting

  /** Bytes of the pieces in [lo, hi) that are (`held`) or are not in `keys`. */
  function Weigh(c: Config, f: int, keys: set<int>, held: bool, lo: nat, hi: nat): nat
    requires ValidFile(c, f)
    decreases hi
  {
    if hi <= lo then 0
    else Weigh(c, f, keys, held, lo, hi - 1) + if (hi - 1 in keys) == held then |Piece(c, f, hi - 1)| else 0
  }

  function Acked(c: Config, f: int, keys: set<int>, lo: nat, hi: nat): nat
    requires ValidFile(c, f)
  { Weigh(c, f, keys, false, lo, hi) }

  function InFlightBytes(c: Config, f: int, keys: set<int>, lo: nat, hi: nat): nat
    requires ValidFile(c, f)
  { Weigh(c, f, keys, true, lo, hi) }

  /** Bytes not yet offered to the window; pieces below the resume mark are never sent. */
  function Unsent(c: Config, f: int, have: nat, next: nat): nat
    requires ValidFile(c, f)
  { Weigh(c, f, {}, false, if have < next then next else have, Pieces(c, f)) }

  lemma {:induction false} WeighRemove(c: Config, f: int, keys: set<int>, b: nat, lo: nat, hi: nat)
    requires ValidFile(c, f) && b in keys
    ensures Acked(c, f, keys - {b}, lo, hi) ==
            Acked(c, f, keys, lo, hi) + if lo <= b < hi then |Piece(c, f, b)| else 0
    decreases hi
  {
    if hi > lo { WeighRemove(c, f, keys, b, lo, hi - 1); }
  }

  lemma {:induction false} WeighAbove(c: Config, f: int, keys: set<int>, b: nat, held: bool, lo: nat, hi: nat)
    requires ValidFile(c, f) && hi <= b
    ensures Weigh(c, f, keys + {b}, held, lo, hi) == Weigh(c, f, keys, held, lo, hi)
    decreases hi
  {
    if hi > lo { WeighAbove(c, f, keys, b, held, lo, hi - 1); }
  }

  lemma {:induction false} WeighSplit(c: Config, f: int, keys: set<int>, lo: nat, hi: nat)
    requires ValidFile(c, f)
    ensures Acked(c, f, keys, lo, hi) + InFlightBytes(c, f, keys, lo, hi)
            == Weigh(c, f, {}, false, lo, hi)
    decreases hi
  {
    if hi > lo { WeighSplit(c, f, keys, lo, hi - 1); }
  }

  lemma {:induction false} WeighConcat(c: Config, f: int, lo: nat, mid: nat, hi: nat)
    requires ValidFile(c, f) && lo <= mid <= hi
    ensures Weigh(c, f, {}, false, lo, mid) + Weigh(c, f, {}, false, mid, hi) == Weigh(c, f, {}, false, lo, hi)
    decreases hi
  {
    if hi > mid { WeighConcat(c, f, lo, mid, hi - 1); }
  }

  lemma {:induction false} WeighAll(c: Config, f: int, lo: nat, hi: nat)
    requires ValidFile(c, f) && lo <= hi
    ensures var n, bs := |c.streams[f]|, c.manifest.files[f].blockSize;
            Pos(n, bs, lo) <= Pos(n, bs, hi) &&
            Weigh(c, f, {}, false, lo, hi) == Pos(n, bs, hi) - Pos(n, bs, lo)
    decreases hi
  {
    PosMonotone(|c.streams[f]|, c.manifest.files[f].blockSize, lo, hi);
    if hi > lo {
      WeighAll(c, f, lo, hi - 1);
      BlockOfLength(c.streams[f], c.manifest.files[f].blockSize, hi - 1);
    }
  }

  /** What file `f` contributes once it is behind the sender. */
  function FileTotal(c: Config, p: Plan, f: int): int
    requires ValidFile(c, f)
  {
    Committed(c.manifest.files[f], Have(p, f)) +
    if Have(p, f) < 0 then 0 else Weigh(c, f, {}, false, Have(p, f), Pieces(c, f))
  }

  function Behind(c: Config, p: Plan, f: nat): int
    requires ConfigOk(c) && f <= |c.manifest.files|
  {
    if f == 0 then 0 else Behind(c, p, f - 1) + FileTotal(c, p, f - 1)
  }

  // ---------------------------------------------------------------- invariant

  /** Each in-flight block is queued at most once, and exactly when it is marked queued. */
  predicate QueueOk(w: Window) {
    && NoDup(w.queue)
    && w.queued <= w.inflight.Keys
    && (forall b :: b in w.inflight ==> (b in w.queue <==> b in w.queued))
  }

  predicate EmptyWindow(w: Window) { w == Window(map[], [], {}) }

  predicate PlanOk(c: Config, p: Plan) {
    && (forall f :: f in p.have ==> 0 <= f < |c.manifest.files| && 0 <= p.have[f] <= c.manifest.files[f].blocks)
    && (p.applied == None ==> p.have == map[])
    && (p.applied.Some? ==> BelongsTo(c.manifest, p.applied.value) && Follows(p.have, p.applied.value.files))
  }

  predicate Follows(have: map<int, int>, marks: seq<ResumeFileState>) {
    forall i :: 0 <= i < |marks| ==> marks[i].idx in have && have[marks[i].idx] == marks[i].haveBlocks
  }

  predicate BelongsTo(m: Manifest, rs: ResumeState) {
    && rs.transferId == m.transferId
    && (rs.fingerprint.Some? ==> rs.fingerprint.value == Fingerprint(m))
  }

  predicate InFile(pc: Pc) { pc.Loop? || pc.Admitted? || pc.Retrying? || pc.Sending? }

  /** The window holds pieces of the active file between the mark and the read position. */
  predicate WindowOk(c: Config, f: int, w: Window, lo: int, next: nat)
    requires ValidFile(c, f)
  {
    && (forall b :: b in w.inflight ==> 0 <= lo <= b < next && w.inflight[b].bytes == Piece(c, f, b))
    && (forall b :: b in w.queue ==> lo <= b < next)
  }

  predicate PcOk(c: Config, s: State)
    requires InFile(s.pc) && ValidFile(c, s.tally.active)
  {
    var f, lo := s.tally.active, Have(s.plan, s.tally.active);
    && s.pc.next <= Pieces(c, f)
    && (s.pc.Admitted? ==> lo <= s.pc.next < Pieces(c, f) && |s.win.inflight| < c.window)
    && (s.pc.Retrying? ==> lo <= s.pc.block < s.pc.next)
    && (s.pc.Sending? ==> 0 <= lo <= s.pc.block < s.pc.next && s.pc.bytes == Piece(c, f, s.pc.block)
                          && s.pc.off <= |s.pc.bytes|)
  }

  predicate TallyOk(c: Config, s: State)
    requires ConfigOk(c) && InFile(s.pc) && ValidFile(c, s.tally.active)
  {
    var f, lo := s.tally.active, Have(s.plan, s.tally.active);
    && 0 <= lo
    && s.tally.fileAcknowledged == Committed(c.manifest.files[f], lo) + Acked(c, f, s.win.inflight.Keys, lo, s.pc.next)
    && s.tally.acknowledged == Behind(c, s.plan, f) + s.tally.fileAcknowledged
  }

  /** Where the goroutine may be, and what the tallies say there. */
  predicate Position(c: Config, s: State)
    requires ConfigOk(c)
  {
    match s.pc
    case Begin => s.tally == Tally(-1, 0, 0) && !s.manifestSent && EmptyWindow(s.win)
    case AwaitResume => s.tally == Tally(-1, 0, 0) && EmptyWindow(s.win)
    case Activate(f) =>
      && f <= |c.manifest.files| && s.tally.active == f - 1 && EmptyWindow(s.win)
      && s.tally.acknowledged == Behind(c, s.plan, f)
    case WaitDone =>
      && s.tally.active == |c.manifest.files| - 1 && EmptyWindow(s.win)
      && s.tally.acknowledged == Behind(c, s.plan, |c.manifest.files|)
    case Returned(_) => s.outcome != Running
    case _ =>
      && ValidFile(c, s.tally.active)
      && WindowOk(c, s.tally.active, s.win, Have(s.plan, s.tally.active), s.pc.next)
      && PcOk(c, s) && TallyOk(c, s)
  }

  predicate Inv(c: Config, s: State) {
    && ConfigOk(c)
    && QueueOk(s.win) && |s.win.inflight| <= c.window
    && PlanOk(c, s.plan)
    && Position(c, s)
    && (s.completeSent ==> s.pc.WaitDone? || s.pc.Returned?)
    && (s.pc.Returned? && s.pc.ok ==> s.outcome == Succeeded)
    && (s.outcome == Succeeded ==> s.completeSent)
    && (!s.pc.Begin? ==> s.manifestSent)
    && (!s.pc.Begin? && !s.pc.AwaitResume? && !s.pc.Returned? && c.manifest.transferId != [] ==> s.plan.applied.Some?)
    && (c.manifest.transferId == [] ==> s.plan == Plan(map[], None))
  }

  // ---------------------------------------------------------------- steps of Run

  lemma MapRemove<V>(m: map<int, V>, b: int)
    requires b in m
    ensures |m - {b}| == |m| - 1 && (m - {b}).Keys == m.Keys - {b}
  {
    assert (m - {b}).Keys == m.Keys - {b};
    assert |m - {b}| == |(m - {b}).Keys| && |m| == |m.Keys|;
  }

  lemma MapInsert<V>(m: map<int, V>, b: int, v: V)
    ensures m[b := v].Keys == m.Keys + {b}
    ensures |m[b := v]| <= |m| + 1
    ensures b in m ==> |m[b := v]| == |m|
  {
    assert m[b := v].Keys == m.Keys + {b};
    assert |m[b := v]| == |m[b := v].Keys| && |m| == |m.Keys|;
    if b in m { assert m.Keys + {b} == m.Keys; }
  }

  lemma ActivateKeepsInv(c: Config, s: State)
    requires Inv(c, s) && s.pc.Activate? && s.pc.file < |c.manifest.files|
    ensures Inv(c, ActivateFile(c, s, s.pc.file))
  {
    hide Committed, Blocks, BlockOf;
  }

  lemma PopKeepsInv(c: Config, s: State)
    requires Inv(c, s) && s.pc.Loop? && s.win.queue != []
    ensures Inv(c, PopRetry(s, s.pc.next))
  {
    hide Committed, Blocks, BlockOf, Weigh, Behind, PlanOk;
    var q := s.win.queue;
    assert forall x :: x in q <==> x == q[0] || x in q[1..];
  }

  /** A change that touches neither the window, the tallies, the plan nor the position. */
  lemma FrameKeepsInv(c: Config, s: State, t: State)
    requires Inv(c, s) && s.outcome == Running
    requires t.pc == s.pc && t.win == s.win && t.tally == s.tally && t.plan == s.plan
    requires t.manifestSent == s.manifestSent && t.completeSent == s.completeSent
    requires t.outcome == Succeeded ==> s.completeSent
    ensures Inv(c, t)
  {
    hide Committed, Blocks, BlockOf, Weigh, Behind, QueueOk, WindowOk, PlanOk;
  }

  /** Leaving the loop because the sender settled. */
  lemma ReturnKeepsInv(c: Config, s: State, t: State)
    requires Inv(c, s) && t.pc == Returned(false) && t.outcome != Running
    requires t.win == s.win && t.plan == s.plan && t.manifestSent == s.manifestSent && t.completeSent == s.completeSent
    requires t.outcome == Succeeded ==> s.completeSent
    requires s.manifestSent
    ensures Inv(c, t)
  {
    hide Committed, Blocks, BlockOf, Weigh, Behind, QueueOk, WindowOk, PlanOk;
  }

  lemma DrainedKeepsInv(c: Config, s: State)
    requires Inv(c, s) && s.pc.Loop? && s.win.queue == [] && s.win.inflight == map[]
    requires s.pc.next >= Pieces(c, s.tally.active)
    ensures Inv(c, s.(pc := Activate(s.tally.active + 1)))
  {
    hide Committed, Blocks, BlockOf, WindowOk, PlanOk;
    assert s.win.inflight.Keys == {};
    assert s.win.queued == {};
  }

  lemma SkipKeepsInv(c: Config, s: State)
    requires Inv(c, s) && s.pc.Loop? && s.pc.next < Pieces(c, s.tally.active)
    requires s.pc.next < Have(s.plan, s.tally.active)
    ensures Inv(c, s.(pc := Loop(s.pc.next + 1)))
  {
    hide Committed, Blocks, BlockOf, Behind, QueueOk, PlanOk;
  }

  lemma CapacityKeepsInv(c: Config, s: State)
    requires Inv(c, s) && s.pc.Loop? && s.pc.next < Pieces(c, s.tally.active)
    requires Have(s.plan, s.tally.active) <= s.pc.next
    requires |s.win.inflight| < c.window
    ensures Inv(c, s.(pc := Admitted(s.pc.next)))
  {
    hide Committed, Blocks, BlockOf, Weigh, Behind, QueueOk, WindowOk, PlanOk;
  }

  lemma LoopFacts(c: Config, s: State)
    requires Inv(c, s) && s.pc.Loop?
    ensures ValidFile(c, s.tally.active) && s.manifestSent && (s.outcome == Succeeded ==> s.completeSent)
  {
    hide Committed, Blocks, BlockOf, Weigh, Behind, QueueOk, WindowOk, PlanOk;
  }

  lemma LoopKeepsInv(c: Config, s: State)
    requires Inv(c, s) && s.pc.Loop?
    ensures Inv(c, LoopStep(c, s, s.pc.next))
  {
    hide Inv, PopRetry, Pieces;
    var f := s.tally.active;
    LoopFacts(c, s);
    if s.pc.next < Pieces(c, f) && s.pc.next < Have(s.plan, f) {
      SkipKeepsInv(c, s);
    } else if s.outcome != Running {
      ReturnKeepsInv(c, s, s.(pc := Returned(false)));
    } else if !s.paused {
      if s.win.queue != [] {
        PopKeepsInv(c, s);
      } else if s.pc.next < Pieces(c, f) {
        if |s.win.inflight| < c.window { CapacityKeepsInv(c, s); }
      } else if s.win.inflight == map[] {
        DrainedKeepsInv(c, s);
      }
    }
  }

  lemma AdmitKeepsInv(c: Config, s: State)
    requires Inv(c, s) && s.pc.Admitted?
    ensures Inv(c, AdmitBlock(c, s, s.pc.next))
  {
    hide Committed, Blocks, BlockOf;
    if s.outcome == Running {
      var f, next := s.tally.active, s.pc.next;
      MapInsert(s.win.inflight, next, Inflight(Piece(c, f, next), 0));
      WeighAbove(c, f, s.win.inflight.Keys, next, false, Have(s.plan, f), next);
    }
  }

  lemma RetagKeepsWindow(c: Config, f: int, w: Window, lo: int, next: nat, block: int, retries: int)
    requires ValidFile(c, f) && QueueOk(w) && WindowOk(c, f, w, lo, next) && block in w.inflight
    ensures var w' := w.(inflight := w.inflight[block := w.inflight[block].(retries := retries)]);
            && QueueOk(w') && WindowOk(c, f, w', lo, next)
            && w'.inflight.Keys == w.inflight.Keys && |w'.inflight| == |w.inflight|
  {
    hide BlockOf, Blocks;
    MapInsert(w.inflight, block, w.inflight[block].(retries := retries));
    assert w.inflight.Keys + {block} == w.inflight.Keys;
  }

  lemma ResendKeepsInv(c: Config, s: State)
    requires Inv(c, s) && s.pc.Retrying?
    ensures Inv(c, Resend(c, s, s.pc.block, s.pc.next))
  {
    hide Committed, Blocks, BlockOf, Weigh, Behind, PlanOk;
    if s.pc.block in s.win.inflight {
      var entry := s.win.inflight[s.pc.block];
      assert entry.bytes == Piece(c, s.tally.active, s.pc.block);
      RetagKeepsWindow(c, s.tally.active, s.win, Have(s.plan, s.tally.active), s.pc.next, s.pc.block, entry.retries + 1);
    }
    hide QueueOk, WindowOk;
  }

  lemma SendKeepsInv(c: Config, s: State, sendOk: bool)
    requires Inv(c, s) && s.pc.Sending?
    ensures Inv(c, SendStep(c, s, sendOk))
  {
    hide Committed, Blocks, BlockOf, Weigh, Behind, PlanOk, QueueOk, WindowOk;
  }

  lemma RunStepKeepsInv(c: Config, s: State, sendOk: bool)
    requires Inv(c, s)
    ensures Inv(c, RunStep(c, s, sendOk))
  {
    hide Committed, Blocks, BlockOf, Weigh;
    hide LoopStep, AdmitBlock, Resend, SendStep, ActivateFile;
    match s.pc {
      case Loop(_) => LoopKeepsInv(c, s);
      case Admitted(_) => AdmitKeepsInv(c, s);
      case Retrying(_, _) => ResendKeepsInv(c, s);
      case Sending(_, _, _, _) => SendKeepsInv(c, s, sendOk);
      case Activate(f) => if f < |c.manifest.files| { ActivateKeepsInv(c, s); }
      case _ =>
    }
  }

  // ---------------------------------------------------------------- other events

  lemma RemoveKeepsWindow(c: Config, f: int, w: Window, lo: int, next: nat, block: int)
    requires ValidFile(c, f) && QueueOk(w) && WindowOk(c, f, w, lo, next) && block in w.inflight
    ensures var w' := w.(inflight := w.inflight - {block}, queued := w.queued - {block});
            && QueueOk(w') && WindowOk(c, f, w', lo, next)
            && w'.inflight.Keys == w.inflight.Keys - {block} && |w'.inflight| == |w.inflight| - 1
  {
    hide BlockOf, Blocks;
    MapRemove(w.inflight, block);
  }

  lemma AckKeepsInv(c: Config, s: State, file: int, block: int)
    requires Inv(c, s)
    ensures s.outcome == Running ==> Inv(c, OnAck(s, file, block))
  {
    hide Committed, Blocks, BlockOf, Weigh, Behind, PlanOk;
    if s.outcome == Running && file == s.tally.active && block in s.win.inflight {
      var lo := Have(s.plan, file);
      assert 0 <= lo <= block < s.pc.next && s.win.inflight[block].bytes == Piece(c, file, block);
      RemoveKeepsWindow(c, file, s.win, lo, s.pc.next, block);
      WeighRemove(c, file, s.win.inflight.Keys, block, lo, s.pc.next);
      hide QueueOk, WindowOk;
    } else if s.outcome == Running {
      FrameKeepsInv(c, s, SettleFailed(s, Integrity));
    }
  }

  lemma QueueKeepsInv(c: Config, s: State, block: int)
    requires Inv(c, s)
    ensures Inv(c, QueueRetry(s, block))
  {
    hide Committed, Blocks, BlockOf, Weigh;
    var q := s.win.queue;
    assert forall x :: x in q + [block] <==> x == block || x in q;
  }

  lemma {:induction false} MarksScanned(files: seq<FileEntry>, marks: seq<ResumeFileState>, k: nat)
    requires k <= |marks| && ScanMarks(files, marks, k).Some?
    ensures var plan := ScanMarks(files, marks, k).value;
            && |plan| == k
            && (forall i :: 0 <= i < k ==> marks[i].idx in plan && plan[marks[i].idx] == marks[i].haveBlocks)
            && (forall f :: f in plan ==> 0 <= f < |files| && 0 <= plan[f] <= files[f].blocks)
  {
    if k > 0 {
      MarksScanned(files, marks, k - 1);
    }
  }

  lemma ResumeKeepsInv(c: Config, s: State, m: ResumeState)
    requires Inv(c, s) && s.outcome == Running
    ensures Inv(c, OnResumeState(c, s, m))
  {
    hide Committed, Blocks, BlockOf, Weigh;
    if BuildPlan(c, s, m).Some? && s.plan.applied == None {
      MarksScanned(c.manifest.files, m.files, |m.files|);
    }
  }

  lemma HandleKeepsInv(c: Config, s: State, frame: Frame)
    requires Inv(c, s)
    ensures Inv(c, Handle(c, s, frame))
  {
    hide Inv, OnAck, OnResumeState, QueueRetry;
    if s.outcome == Running && frame.Sealed? && s.link.recvCounter <= frame.counter {
      var s1 := Accept(s, frame.counter);
      FrameKeepsInv(c, s, s1);
      match frame.msg {
        case Ack(file, block) => AckKeepsInv(c, s1, file, block);
        case Nack(file, block) =>
          QueueKeepsInv(c, s1, block);
          FrameKeepsInv(c, s1, SettleFailed(s1, Integrity));
        case ResumeMsg(m) => ResumeKeepsInv(c, s1, m);
        case _ => FrameKeepsInv(c, s1, Dispatch(c, s1, frame.msg));
      }
    } else if s.outcome == Running && frame.Forged? {
      FrameKeepsInv(c, s, SettleFailed(s, Integrity));
    }
  }

  /** Requeueing every unmarked in-flight block keeps the queue free of duplicates. */
  lemma RequeueKeepsQueue(w: Window, order: seq<int>)
    requires QueueOk(w) && Enumerates(order, w.inflight.Keys - w.queued)
    ensures var w' := Window(ResetRetries(w.inflight), w.queue + order, w.inflight.Keys + w.queued);
            && QueueOk(w')
            && w'.inflight.Keys == w.inflight.Keys && |w'.inflight| == |w.inflight|
            && w'.queued == w.inflight.Keys
            && (forall b :: b in w'.queue ==> b in w.queue || b in w.inflight)
            && (EmptyWindow(w) ==> EmptyWindow(w'))
  {
    var w' := Window(ResetRetries(w.inflight), w.queue + order, w.inflight.Keys + w.queued);
    assert w'.inflight.Keys == w.inflight.Keys;
    assert |w'.inflight| == |w'.inflight.Keys| && |w.inflight| == |w.inflight.Keys|;
    assert forall x :: x in w'.queue <==> x in w.queue || x in order;
    forall i, j | 0 <= i < j < |w'.queue| ensures w'.queue[i] != w'.queue[j] {
      if i < |w.queue| && j >= |w.queue| {
        assert order[j - |w.queue|] in order && w.queue[i] in w.queue;
      }
    }
    if EmptyWindow(w) && order != [] { assert order[0] in order; }
  }

  lemma PathChangeKeepsInv(c: Config, s: State, order: seq<int>)
    requires Inv(c, s)
    ensures Inv(c, TransportChanged(c, s, order))
  {
    hide Committed, Blocks, BlockOf, Weigh, Behind, PlanOk, Enumerates, QueueOk;
    if s.outcome == Running && Enumerates(order, s.win.inflight.Keys - s.win.queued) {
      RequeueKeepsQueue(s.win, order);
      var w' := Window(ResetRetries(s.win.inflight), s.win.queue + order, s.win.inflight.Keys + s.win.queued);
      assert Inv(c, s.(win := w'));
    }
  }

  lemma ApplyKeepsInv(c: Config, s: State, e: Event)
    requires Inv(c, s)
    ensures Inv(c, Apply(c, s, e))
  {
    assert s.pc.Loop? ==> s.manifestSent;
    assert s.outcome == Succeeded ==> s.completeSent;
    hide Inv, RunStep, Handle, TransportChanged, QueueRetry;
    match e {
      case Advance(sendOk) => RunStepKeepsInv(c, s, sendOk);
      case Inbound(frame) => HandleKeepsInv(c, s, frame);
      case AckTimeout(block) => QueueKeepsInv(c, s, block);
      case PathChange(order) => PathChangeKeepsInv(c, s, order);
      case SourceError =>
        if s.pc.Loop? {
          ReturnKeepsInv(c, s, SourceFails(s));
        }
      case _ => if s.outcome == Running { FrameKeepsInv(c, s, Apply(c, s, e)); }
    }
  }

  lemma {:induction false} ReachableKeepsInv(c: Config, es: seq<Event>)
    requires ConfigOk(c)
    ensures Inv(c, Exec(c, es))
    decreases |es|
  {
    if es != [] {
      ReachableKeepsInv(c, es[..|es| - 1]);
      ApplyKeepsInv(c, Exec(c, es[..|es| - 1]), es[|es| - 1]);
    }
  }

  // ---------------------------------------------------------------- main results

  /** Acknowledged, in-flight and unsent bytes always add up to the whole of the active file,
      however acks are duplicated and blocks retransmitted. */
  lemma Conservation(c: Config, s: State)
    requires Inv(c, s) && InFile(s.pc)
    ensures var f, have := s.tally.active, Have(s.plan, s.tally.active);
            && 0 <= have
            && s.tally.fileAcknowledged + InFlightBytes(c, f, s.win.inflight.Keys, have, s.pc.next)
               + Unsent(c, f, have, s.pc.next) == FileTotal(c, s.plan, f)
            && (|c.streams[f]| == c.manifest.files[f].size ==> FileTotal(c, s.plan, f) == c.manifest.files[f].size)
  {
    var f, have := s.tally.active, Have(s.plan, s.tally.active);
    assert ConfigOk(c) && TallyOk(c, s) && s.pc.next <= Pieces(c, f);
    WeighSplit(c, f, s.win.inflight.Keys, have, s.pc.next);
    if have <= s.pc.next { WeighConcat(c, f, have, s.pc.next, Pieces(c, f)); }
    if |c.streams[f]| == c.manifest.files[f].size {
      StableFileTotal(c, s.plan, f);
    }
  }

  lemma StableFileTotal(c: Config, p: Plan, f: int)
    requires PlanOk(c, p) && ValidFile(c, f) && |c.streams[f]| == c.manifest.files[f].size
    ensures FileTotal(c, p, f) == c.manifest.files[f].size
  {
    var e := c.manifest.files[f];
    CommittedIsPos(e, Have(p, f));
    WeighAll(c, f, Have(p, f), Pieces(c, f));
    BlockCountBound(e.size, e.blockSize);
  }

  /** The window discipline of every run. */
  lemma WindowDiscipline(c: Config, es: seq<Event>)
    requires ConfigOk(c)
    ensures var s := Exec(c, es);
            && |s.win.inflight| <= c.window
            && NoDup(s.win.queue)
            && (forall b :: b in s.win.inflight ==> (b in s.win.queue <==> b in s.win.queued))
            && (s.pc.Activate? || s.pc.WaitDone? ==> s.win == Window(map[], [], {}))
            && (InFile(s.pc) ==>
                 && ValidFile(c, s.tally.active) && 0 <= Have(s.plan, s.tally.active)
                 && s.tally.fileAcknowledged
                 + InFlightBytes(c, s.tally.active, s.win.inflight.Keys, Have(s.plan, s.tally.active), s.pc.next)
                 + Unsent(c, s.tally.active, Have(s.plan, s.tally.active), s.pc.next)
                 == FileTotal(c, s.plan, s.tally.active))
  {
    ReachableKeepsInv(c, es);
    if InFile(Exec(c, es).pc) { Conservation(c, Exec(c, es)); }
  }

  // ---------------------------------------------------------------- resume plans

  /** The marks name every manifest file exactly once, each within the file's block count. */
  predicate MarksCover(files: seq<FileEntry>, marks: seq<ResumeFileState>) {
    && |marks| == |files|
    && (forall i :: 0 <= i < |marks| ==>
          0 <= marks[i].idx < |files| && 0 <= marks[i].haveBlocks <= files[marks[i].idx].blocks)
    && (forall i, j :: 0 <= i < j < |marks| ==> marks[i].idx != marks[j].idx)
  }

  lemma {:induction false} ScanAccepts(files: seq<FileEntry>, marks: seq<ResumeFileState>, k: nat)
    requires k <= |marks| && MarksCover(files, marks)
    ensures ScanMarks(files, marks, k).Some?
    ensures forall f :: f in ScanMarks(files, marks, k).value ==> exists i :: 0 <= i < k && marks[i].idx == f
  {
    if k > 0 {
      ScanAccepts(files, marks, k - 1);
    }
  }

  lemma {:induction false} ScanDistinct(files: seq<FileEntry>, marks: seq<ResumeFileState>, k: nat)
    requires k <= |marks| && ScanMarks(files, marks, k).Some?
    ensures forall i, j :: 0 <= i < j < k ==> marks[i].idx != marks[j].idx
  {
    if k > 0 {
      ScanDistinct(files, marks, k - 1);
      MarksScanned(files, marks, k - 1);
    }
  }

  /** A first resume_state is accepted exactly when it belongs to this manifest and covers it;
      the committed plan is then the advertised marks, file by file. */
  lemma PlanIsExact(c: Config, s: State, m: ResumeState)
    requires Inv(c, s) && s.plan.applied == None
    ensures BuildPlan(c, s, m).Some? <==>
            && c.manifest.transferId != [] && s.manifestSent
            && BelongsTo(c.manifest, m)
            && MarksCover(c.manifest.files, m.files)
    ensures BuildPlan(c, s, m).Some? ==>
            && |BuildPlan(c, s, m).value| == |c.manifest.files|
            && (forall i :: 0 <= i < |m.files| ==>
                  && m.files[i].idx in BuildPlan(c, s, m).value
                  && BuildPlan(c, s, m).value[m.files[i].idx] == m.files[i].haveBlocks)
    ensures BuildPlan(c, s, m) == None ==> OnResumeState(c, s, m).plan == s.plan
  {
    var files, marks := c.manifest.files, m.files;
    if ScanMarks(files, marks, |marks|).Some? {
      MarksScanned(files, marks, |marks|);
      ScanDistinct(files, marks, |marks|);
    }
    if MarksCover(files, marks) { ScanAccepts(files, marks, |marks|); }
  }

  /** After a plan is in force, the identical message changes nothing and any other message
      is refused without touching the plan. */
  lemma DuplicateResumeState(c: Config, s: State, m: ResumeState)
    requires Inv(c, s) && s.outcome == Running && s.plan.applied.Some? && s.manifestSent
    ensures OnResumeState(c, s, m) ==
            if m == s.plan.applied.value then s else s.(outcome := Failed(Integrity))
  {}
}
