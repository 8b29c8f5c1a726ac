/** What a nack or an ack timeout leads to: the block is sealed again within a bounded number of
    steps, or the retry budget of a block waiting no later than it is used up; and the budget
    counts resends since the block was admitted or the path last changed. */
module SenderRetry {
  import opened Wire
  import opened Geometry
  import opened SenderModel
  import opened SenderWindow

  // ---------------------------------------------------------------- the budget

  /** How often block `b` has been resent since it was admitted or the path last changed. */
  function Resends(c: Config, es: seq<Event>, b: int): nat
    requires ConfigOk(c)
  {
    if es == [] then 0
    else
      var init, e := es[..|es| - 1], es[|es| - 1];
      var s, t := Exec(c, init), Exec(c, es);
      if e.PathChange? && s.outcome == Running && Enumerates(e.order, s.win.inflight.Keys - s.win.queued) then 0
      else if e.Advance? && s.pc.Admitted? && s.pc.next == b && t.pc.Sending? then 0
      else if e.Advance? && s.pc.Retrying? && s.pc.block == b && t.pc.Sending? then Resends(c, init, b) + 1
      else Resends(c, init, b)
  }

  /** One step of Run and the retry counts. */
  lemma RunRetries(c: Config, s: State, sendOk: bool, b: int)
    requires Inv(c, s)
    ensures var t := RunStep(c, s, sendOk);
            b in t.win.inflight ==>
              if s.pc.Admitted? && s.pc.next == b && t.pc.Sending? then t.win.inflight[b].retries == 0
              else b in s.win.inflight && t.win.inflight[b].retries
                   == s.win.inflight[b].retries + if s.pc.Retrying? && s.pc.block == b && t.pc.Sending? then 1 else 0
  {
    hide Inv, Piece, CompletionDigest, LoopStep, SendStep, ActivateFile, Steady, SameFlags;
  }

  lemma OtherRetries(c: Config, s: State, e: Event, b: int)
    requires ConfigOk(c) && !e.Advance?
    ensures var t := Apply(c, s, e);
            b in t.win.inflight ==>
              && b in s.win.inflight
              && (if e.PathChange? && s.outcome == Running && Enumerates(e.order, s.win.inflight.Keys - s.win.queued)
                  then t.win.inflight[b].retries == 0 else t.win.inflight[b] == s.win.inflight[b])
  {
    hide Enumerates, BuildPlan, CompletionDigest;
  }

  /** The count an in-flight block carries is the number of its resends. */
  lemma {:induction false} RetriesAreResends(c: Config, es: seq<Event>, b: int)
    requires ConfigOk(c) && b in Exec(c, es).win.inflight
    ensures Exec(c, es).win.inflight[b].retries == Resends(c, es, b)
    decreases |es|
  {
    hide Apply, Enumerates, ConfigOk;
    if es != [] {
      var init, e := es[..|es| - 1], es[|es| - 1];
      ReachableKeepsInv(c, init);
      if e.Advance? {
        RunRetries(c, Exec(c, init), e.sendOk, b);
        AdvanceIs(c, Exec(c, init), e.sendOk);
      } else {
        OtherRetries(c, Exec(c, init), e, b);
      }
      if b in Exec(c, init).win.inflight { RetriesAreResends(c, init, b); }
    }
  }

  lemma AdvanceIs(c: Config, s: State, sendOk: bool)
    requires ConfigOk(c)
    ensures Apply(c, s, Advance(sendOk)) == RunStep(c, s, sendOk)
  {}

  // ---------------------------------------------------------------- from a nack to the queue

  /** The block will be sealed again: it waits in the queue, or its turn has come. */
  predicate Wanted(s: State, b: int) {
    b in s.win.queue || (s.pc.Retrying? && s.pc.block == b) || (s.pc.Sending? && s.pc.block == b)
  }

  /** A nack of an in-flight block of the active file, or its ack timeout, queues it. */
  lemma AskedIsQueued(c: Config, es: seq<Event>, e: Event, b: int)
    requires ConfigOk(c)
    requires Exec(c, es).outcome == Running && b in Exec(c, es).win.inflight
    requires || e == AckTimeout(b)
             || (e.Inbound? && e.frame.Sealed? && Exec(c, es).link.recvCounter <= e.frame.counter
                 && e.frame.msg == Nack(Exec(c, es).tally.active, b))
    ensures var t := Apply(c, Exec(c, es), e);
            b in t.win.queue && b in t.win.inflight && t.outcome == Running && t.pc == Exec(c, es).pc
  {
    ReachableKeepsInv(c, es);
    hide Exec, Position, PlanOk, Enumerates;
  }

  lemma PoppedRest(q: seq<int>, b: int)
    requires b in q && q[0] != b
    ensures b in q[1..]
  {
    assert q == [q[0]] + q[1..];
  }

  lemma LoopQueued(c: Config, s: State, next: nat, b: int)
    requires ValidFile(c, s.tally.active) && b in s.win.queue && b in s.win.inflight
    ensures var t := LoopStep(c, s, next);
            b in t.win.queue || (s.win.queue[0] == b && t.pc.Retrying? && t.pc.block == b)
  {
    hide ValidFile, Pieces, Steady, SameFlags;
    if s.win.queue[0] != b { PoppedRest(s.win.queue, b); }
  }

  lemma RunQueued(c: Config, s: State, sendOk: bool, b: int)
    requires Inv(c, s) && b in s.win.queue && b in s.win.inflight
    ensures var t := RunStep(c, s, sendOk);
            && (b in t.win.queue || (s.win.queue[0] == b && t.pc.Retrying? && t.pc.block == b))
            && b in t.win.inflight
  {
    hide Inv, Piece, CompletionDigest, LoopStep, SendStep, ActivateFile, Steady, SameFlags;
    if s.pc.Loop? && ValidFile(c, s.tally.active) { LoopQueued(c, s, s.pc.next, b); }
  }

  lemma OtherQueued(c: Config, s: State, e: Event, b: int)
    requires ConfigOk(c) && b in s.win.queue && b in s.win.inflight && !e.Advance?
    ensures var t := Apply(c, s, e);
            b in t.win.queue && (b in t.win.inflight || (e.Inbound? && e.frame.Sealed? && e.frame.msg.Ack?))
  {
    hide Enumerates, BuildPlan, CompletionDigest, ConfigOk;
  }

  /** A queued block stays queued until its turn comes, and in the window until it is
      acknowledged. */
  lemma QueuedStays(c: Config, es: seq<Event>, e: Event, b: int)
    requires ConfigOk(c) && b in Exec(c, es).win.queue && b in Exec(c, es).win.inflight
    ensures var s, t := Exec(c, es), Apply(c, Exec(c, es), e);
            || b in t.win.queue
            || (e.Advance? && s.win.queue[0] == b && t.pc.Retrying? && t.pc.block == b)
    ensures b in Apply(c, Exec(c, es), e).win.inflight || (e.Inbound? && e.frame.Sealed? && e.frame.msg.Ack?)
  {
    ReachableKeepsInv(c, es);
    hide Exec, Apply, Inv;
    if e.Advance? {
      AdvanceIs(c, Exec(c, es), e.sendOk);
      RunQueued(c, Exec(c, es), e.sendOk, b);
    } else {
      OtherQueued(c, Exec(c, es), e, b);
    }
  }

  // ---------------------------------------------------------------- work left before it is sealed

  function IndexOf(q: seq<int>, b: int): (i: nat)
    requires b in q
    ensures i < |q| && q[i] == b
  {
    if q[0] == b then 0 else IndexOf(q[1..], b) + 1
  }

  /** The steps one queued block takes: out of the queue, resend, its fragments, its hash. */
  function Cost(w: Window, b: int): nat { if b in w.inflight then |w.inflight[b].bytes| + 3 else 2 }

  function QueueWork(w: Window, q: seq<int>): nat {
    if q == [] then 0 else Cost(w, q[0]) + QueueWork(w, q[1..])
  }

  /** The steps the block in hand still takes. */
  function HandWork(c: Config, s: State): nat {
    match s.pc
    case Retrying(block, _) => Cost(s.win, block) - 1
    case Admitted(next) => if ValidFile(c, s.tally.active) then |Piece(c, s.tally.active, next)| + 2 else 0
    case Sending(_, bytes, off, _) => if off <= |bytes| then |bytes| - off + 1 else 0
    case _ => 0
  }

  predicate InHand(s: State, b: int) { (s.pc.Retrying? || s.pc.Sending?) && s.pc.block == b }

  /** The queue up to and including block `b`; nothing if its turn has come. */
  function Before(s: State, b: int): seq<int>
    requires Wanted(s, b)
  {
    if InHand(s, b) then [] else s.win.queue[..IndexOf(s.win.queue, b) + 1]
  }

  function Work(c: Config, s: State, b: int): nat
    requires Wanted(s, b)
  {
    HandWork(c, s) + QueueWork(s.win, Before(s, b))
  }

  /** Block `b` may be resent once more; a resend that is already due counts. */
  predicate HasBudget(c: Config, s: State, b: int) {
    b in s.win.inflight ==> s.win.inflight[b].retries + (if s.pc.Retrying? && s.pc.block == b then 1 else 0) < c.maxRetries
  }

  /** The block in hand is not one whose resends are used up. */
  predicate HandClear(c: Config, s: State) {
    s.pc.Retrying? && s.pc.block in s.win.inflight ==> s.win.inflight[s.pc.block].retries < c.maxRetries
  }

  /** No block that comes no later than `b` has used up its resends. */
  predicate Clear(c: Config, s: State, b: int)
    requires Wanted(s, b)
  {
    HandClear(c, s) && forall i :: 0 <= i < |Before(s, b)| ==> HasBudget(c, s, Before(s, b)[i])
  }

  /** A running sender in a file, not paused, whose frames fit their header. */
  predicate Sendable(c: Config, s: State) {
    && Inv(c, s) && InFile(s.pc) && s.outcome == Running && !s.paused && c.frameSize <= MAX_FRAME_PAYLOAD
  }

  lemma QueueWorkPop(w: Window, q: seq<int>)
    requires q != []
    ensures QueueWork(w, q) == Cost(w, q[0]) + QueueWork(w, q[1..])
  {}

  lemma {:induction false} QueueWorkSame(v: Window, w: Window, q: seq<int>)
    requires forall b :: b in v.inflight <==> b in w.inflight
    requires forall b :: b in v.inflight ==> |v.inflight[b].bytes| == |w.inflight[b].bytes|
    ensures QueueWork(v, q) == QueueWork(w, q)
    decreases |q|
  {
    if q != [] { QueueWorkSame(v, w, q[1..]); }
  }

  lemma BeforePop(q: seq<int>, b: int)
    requires b in q && q[0] != b
    ensures b in q[1..] && IndexOf(q, b) == IndexOf(q[1..], b) + 1
    ensures q[..IndexOf(q, b) + 1] == [q[0]] + q[1..][..IndexOf(q[1..], b) + 1]
  {
    assert q == [q[0]] + q[1..];
  }

  /** One step of Run while `b` is wanted: it is sealed, the budget of an earlier block is used
      up, or less is left to do. */
  predicate StepTowards(c: Config, s: State, b: int, t: State)
    requires Wanted(s, b) && ValidFile(c, s.tally.active) && 0 <= b
  {
    if Clear(c, s, b) then
      || (t.outcome == Running && t.link.sent == s.link.sent + [BlockHash(s.tally.active, b, Sha(Piece(c, s.tally.active, b)))])
      || (Sendable(c, t) && t.tally == s.tally && s.link.sent <= t.link.sent && b in t.win.inflight
          && Wanted(t, b) && Clear(c, t, b) && Work(c, t, b) < Work(c, s, b))
    else
      || (t.pc == Returned(false) && t.outcome == Failed(RetryExhausted))
      || (Sendable(c, t) && t.tally == s.tally && s.link.sent <= t.link.sent && b in t.win.inflight
          && Wanted(t, b) && !Clear(c, t, b) && Work(c, t, b) < Work(c, s, b))
  }

  /** What the invariant says of a wanted block. */
  lemma WantedFacts(c: Config, s: State, b: int)
    requires Sendable(c, s) && b in s.win.inflight
    ensures ConfigOk(c) && ValidFile(c, s.tally.active) && 0 <= b
    ensures s.win.inflight[b].bytes == Piece(c, s.tally.active, b)
    ensures s.pc.Sending? ==> 0 <= s.pc.block && s.pc.bytes == Piece(c, s.tally.active, s.pc.block) && s.pc.off <= |s.pc.bytes|
  {
    hide QueueOk, PlanOk, TallyOk, BlockOf, Blocks;
  }

  /** With something queued the loop takes the queue's head. */
  lemma LoopPops(c: Config, s: State, b: int)
    requires Sendable(c, s) && b in s.win.inflight && Wanted(s, b) && s.pc.Loop?
    ensures ConfigOk(c) && RunStep(c, s, true) == PopRetry(s, s.pc.next) && Sendable(c, RunStep(c, s, true))
  {
    RunStepKeepsInv(c, s, true);
    hide PlanOk, TallyOk, BlockOf, Blocks;
  }

  lemma LoopTowards(c: Config, s: State, b: int)
    requires Sendable(c, s) && b in s.win.inflight && Wanted(s, b) && s.pc.Loop?
    requires ConfigOk(c) && ValidFile(c, s.tally.active) && 0 <= b
    ensures StepTowards(c, s, b, RunStep(c, s, true))
  {
    LoopPops(c, s, b);
    assert NoDup(s.win.queue) by { QueueDistinct(c, s); }
    hide Sendable, RunStep, Piece;
    PopTowards(c, s, b);
  }

  lemma QueueDistinct(c: Config, s: State)
    requires Inv(c, s)
    ensures NoDup(s.win.queue)
  {}

  /** Taking the head off the queue leaves the rest of the way to `b`. */
  lemma PopTowards(c: Config, s: State, b: int)
    requires b in s.win.inflight && b in s.win.queue && s.pc.Loop? && NoDup(s.win.queue)
    ensures var t := PopRetry(s, s.pc.next);
            Wanted(t, b) && (Clear(c, t, b) <==> Clear(c, s, b)) && Work(c, t, b) < Work(c, s, b)
  {
    var q, t := s.win.queue, PopRetry(s, s.pc.next);
    hide PopRetry, QueueWork, IndexOf;
    PopIs(s);
    QueueWorkPop(s.win, Before(s, b));
    if q[0] == b {
      FirstIndex(q, b);
      assert Before(s, b) == [b] && Before(t, b) == [];
      QueueWorkNone(t.win);
    } else {
      BeforePop(q, b);
      var rest := Before(t, b);
      assert Before(s, b) == [q[0]] + rest;
      QueueWorkSame(s.win, t.win, rest);
      assert Before(s, b)[0] == q[0];
      assert forall i :: 0 <= i < |rest| ==> rest[i] == Before(s, b)[i + 1] == q[i + 1] != q[0];
    }
  }

  lemma PopIs(s: State)
    requires s.pc.Loop? && s.win.queue != []
    ensures var t := PopRetry(s, s.pc.next);
            && t.win.queue == s.win.queue[1..] && t.win.inflight == s.win.inflight
            && t.pc == (if s.win.queue[0] in s.win.inflight then Retrying(s.win.queue[0], s.pc.next) else s.pc)
  {}

  lemma FirstIndex(q: seq<int>, b: int)
    requires q != [] && q[0] == b
    ensures b in q && IndexOf(q, b) == 0 && q[..1] == [b]
  {}

  lemma QueueWorkNone(w: Window)
    ensures QueueWork(w, []) == 0
  {}

  /** What one step of Run does to the block in hand. */
  lemma HandTowards(c: Config, s: State, b: int)
    requires Sendable(c, s) && b in s.win.inflight && Wanted(s, b) && !s.pc.Loop?
    requires ConfigOk(c) && ValidFile(c, s.tally.active) && 0 <= b
    ensures StepTowards(c, s, b, RunStep(c, s, true))
  {
    WantedFacts(c, s, b);
    RunStepKeepsInv(c, s, true);
    hide Inv, Piece, QueueWork, IndexOf;
    match s.pc {
      case Retrying(_, _) => RetryTowards(c, s, b);
      case Admitted(_) => AdmitTowards(c, s, b);
      case Sending(_, _, _, _) => SendTowards(c, s, b);
    }
  }

  lemma {:induction false} QueueWorkOn(v: Window, w: Window, q: seq<int>)
    requires forall i :: 0 <= i < |q| ==> Cost(v, q[i]) == Cost(w, q[i])
    ensures QueueWork(v, q) == QueueWork(w, q)
    decreases |q|
  {
    if q != [] { QueueWorkOn(v, w, q[1..]); }
  }

  lemma RetryTowards(c: Config, s: State, b: int)
    requires Sendable(c, s) && b in s.win.inflight && Wanted(s, b) && s.pc.Retrying?
    requires ConfigOk(c) && ValidFile(c, s.tally.active) && 0 <= b
    requires Inv(c, RunStep(c, s, true))
    ensures StepTowards(c, s, b, RunStep(c, s, true))
  {
    hide Inv, Piece, QueueWork, IndexOf;
    var t := RunStep(c, s, true);
    if !t.pc.Returned? {
      assert t.win.queue == s.win.queue;
      assert forall x :: Cost(t.win, x) == Cost(s.win, x);
      if !InHand(s, b) {
        assert Before(t, b) == Before(s, b);
        assert forall x :: HasBudget(c, s, x) <==> HasBudget(c, t, x);
      }
      QueueWorkOn(s.win, t.win, Before(s, b));
    }
  }

  lemma AdmitTowards(c: Config, s: State, b: int)
    requires Sendable(c, s) && b in s.win.inflight && Wanted(s, b) && s.pc.Admitted?
    requires ConfigOk(c) && ValidFile(c, s.tally.active) && 0 <= b
    requires Inv(c, RunStep(c, s, true))
    ensures StepTowards(c, s, b, RunStep(c, s, true))
  {
    var next, t := s.pc.next, RunStep(c, s, true);
    assert next !in s.win.queue && b != next by { NotQueuedYet(c, s); }
    hide Inv, Piece, QueueWork, IndexOf;
    assert Before(t, b) == Before(s, b);
    forall i | 0 <= i < |Before(s, b)|
      ensures Cost(t.win, Before(s, b)[i]) == Cost(s.win, Before(s, b)[i])
      ensures HasBudget(c, t, Before(s, b)[i]) <==> HasBudget(c, s, Before(s, b)[i])
    {
      assert Before(s, b)[i] == s.win.queue[i] && s.win.queue[i] in s.win.queue;
    }
    QueueWorkOn(s.win, t.win, Before(s, b));
  }

  lemma NotQueuedYet(c: Config, s: State)
    requires Inv(c, s) && s.pc.Admitted?
    ensures s.pc.next !in s.win.queue && s.pc.next !in s.win.inflight
  {
    hide QueueOk, PlanOk, TallyOk, BlockOf, Blocks;
  }

  lemma SendTowards(c: Config, s: State, b: int)
    requires Sendable(c, s) && b in s.win.inflight && Wanted(s, b) && s.pc.Sending?
    requires ConfigOk(c) && ValidFile(c, s.tally.active) && 0 <= b
    requires 0 <= s.pc.block && s.pc.bytes == Piece(c, s.tally.active, s.pc.block) && s.pc.off <= |s.pc.bytes|
    requires Inv(c, RunStep(c, s, true))
    ensures StepTowards(c, s, b, RunStep(c, s, true))
  {
    hide Inv, Piece, QueueWork, IndexOf;
    var t := RunStep(c, s, true);
    if !InHand(s, b) || s.pc.off < |s.pc.bytes| {
      assert t.win == s.win && t.outcome == Running;
      assert Before(t, b) == Before(s, b);
      assert forall x :: HasBudget(c, s, x) <==> HasBudget(c, t, x);
    }
  }

  // ---------------------------------------------------------------- main result

  function Advances(n: nat): seq<Event> {
    if n == 0 then [] else Advances(n - 1) + [Advance(true)]
  }

  function Forward(c: Config, s: State, n: nat): State
    requires ConfigOk(c)
    decreases n
  {
    if n == 0 then s else Forward(c, RunStep(c, s, true), n - 1)
  }

  lemma ForwardLast(c: Config, s: State, n: nat)
    requires ConfigOk(c) && n > 0
    ensures Forward(c, s, n) == RunStep(c, Forward(c, s, n - 1), true)
    decreases n
  {
    hide RunStep, ConfigOk;
    if n > 1 { ForwardLast(c, RunStep(c, s, true), n - 1); }
  }

  lemma {:induction false} ForwardIsExec(c: Config, es: seq<Event>, n: nat)
    requires ConfigOk(c)
    ensures Exec(c, es + Advances(n)) == Forward(c, Exec(c, es), n)
    decreases n
  {
    hide RunStep, ConfigOk, Apply;
    if n == 0 {
      assert es + [] == es;
    } else {
      ForwardIsExec(c, es, n - 1);
      var all := es + Advances(n);
      assert all == (es + Advances(n - 1)) + [Advance(true)];
      assert all[..|all| - 1] == es + Advances(n - 1);
      AdvanceIs(c, Exec(c, es + Advances(n - 1)), true);
      ForwardLast(c, Exec(c, es), n);
    }
  }

  /** The hash of block `b` is the newest thing sealed since `s`. */
  predicate Resealed(c: Config, s: State, b: int, t: State) {
    && t.outcome == Running && s.link.sent <= t.link.sent && t.link.sent != s.link.sent
    && ValidFile(c, s.tally.active) && 0 <= b
    && t.link.sent[|t.link.sent| - 1] == BlockHash(s.tally.active, b, Sha(Piece(c, s.tally.active, b)))
  }

  predicate Exhausted(t: State) { t.pc == Returned(false) && t.outcome == Failed(RetryExhausted) }

  lemma WorkPositive(c: Config, s: State, b: int)
    requires ConfigOk(c) && Sendable(c, s) && b in s.win.inflight && Wanted(s, b)
    ensures Work(c, s, b) > 0
  {
    WantedFacts(c, s, b);
    hide Inv, Piece, IndexOf;
    if s.pc.Loop? { assert Before(s, b) != []; }
  }

  lemma ResealedEarlier(c: Config, s: State, b: int, t: State, u: State)
    requires Resealed(c, t, b, u) && s.link.sent <= t.link.sent && t.tally == s.tally
    ensures Resealed(c, s, b, u)
  {
    hide Piece;
  }

  lemma {:induction false} WantedIsResealed(c: Config, s: State, b: int)
    requires ConfigOk(c) && Sendable(c, s) && b in s.win.inflight && Wanted(s, b)
    ensures exists n :: 0 <= n <= Work(c, s, b)
              && if Clear(c, s, b) then Resealed(c, s, b, Forward(c, s, n)) else Exhausted(Forward(c, s, n))
    decreases Work(c, s, b)
  {
    hide Inv, RunStep, ConfigOk, Work, Clear, Wanted, ValidFile, Piece, StepTowards, Resealed, Exhausted;
    WantedFacts(c, s, b);
    WorkPositive(c, s, b);
    if s.pc.Loop? { LoopTowards(c, s, b); } else { HandTowards(c, s, b); }
    var t := RunStep(c, s, true);
    StepCases(c, s, b, t);
    assert Forward(c, s, 1) == Forward(c, t, 0) == t;
    if !(if Clear(c, s, b) then Resealed(c, s, b, t) else Exhausted(t)) {
      WantedIsResealed(c, t, b);
      var n :| 0 <= n <= Work(c, t, b)
        && if Clear(c, t, b) then Resealed(c, t, b, Forward(c, t, n)) else Exhausted(Forward(c, t, n));
      assert Forward(c, s, n + 1) == Forward(c, t, n);
      if Clear(c, s, b) { ResealedEarlier(c, s, b, t, Forward(c, t, n)); }
    }
  }

  lemma StepCases(c: Config, s: State, b: int, t: State)
    requires Wanted(s, b) && ValidFile(c, s.tally.active) && 0 <= b && StepTowards(c, s, b, t)
    ensures (if Clear(c, s, b) then Resealed(c, s, b, t) else Exhausted(t))
            || (&& Sendable(c, t) && t.tally == s.tally && s.link.sent <= t.link.sent && b in t.win.inflight
                && Wanted(t, b) && (Clear(c, t, b) <==> Clear(c, s, b)) && Work(c, t, b) < Work(c, s, b))
  {
    hide Inv, Clear, Wanted, Work, Piece;
  }

  /** With blocks in flight Run is inside a file. */
  lemma InFlightInFile(c: Config, s: State)
    requires Inv(c, s) && s.win.inflight != map[] && s.outcome == Running
    ensures InFile(s.pc)
  {
    hide PlanOk, QueueOk, WindowOk, PcOk, TallyOk, Behind;
  }

  /** In every run, from the moment a block in flight is queued - by a nack, an ack timeout or a
      path change - an unpaused sender that just goes on seals it again within `Work` steps;
      unless a block whose turn comes no later has been resent as often as it may be, and then it
      gives up within as many steps. */
  lemma QueuedBlockIsResent(c: Config, es: seq<Event>, b: int)
    requires ConfigOk(c) && c.frameSize <= MAX_FRAME_PAYLOAD
    requires var s := Exec(c, es); s.outcome == Running && !s.paused && b in s.win.inflight && Wanted(s, b)
    ensures var s := Exec(c, es);
            exists n :: 0 <= n <= Work(c, s, b)
              && if Clear(c, s, b) then Resealed(c, s, b, Exec(c, es + Advances(n)))
                 else Exhausted(Exec(c, es + Advances(n)))
  {
    hide Exec, Inv, Work, Clear, Wanted, Resealed, Exhausted, ConfigOk;
    var s := Exec(c, es);
    ReachableKeepsInv(c, es);
    InFlightInFile(c, s);
    WantedIsResealed(c, s, b);
    var n :| 0 <= n <= Work(c, s, b)
      && if Clear(c, s, b) then Resealed(c, s, b, Forward(c, s, n)) else Exhausted(Forward(c, s, n));
    ForwardIsExec(c, es, n);
  }

  /** The guard in terms of the history: nobody who comes no later has been resent too often. */
  lemma ClearExactly(c: Config, es: seq<Event>, b: int)
    requires ConfigOk(c) && Wanted(Exec(c, es), b) && Exec(c, es).pc.Loop?
    ensures var s := Exec(c, es);
            Clear(c, s, b) <==> forall i :: 0 <= i < |Before(s, b)| && Before(s, b)[i] in s.win.inflight ==>
                                  Resends(c, es, Before(s, b)[i]) < c.maxRetries
  {
    hide Exec, Resends, ConfigOk, IndexOf;
    var s := Exec(c, es);
    forall i | 0 <= i < |Before(s, b)| && Before(s, b)[i] in s.win.inflight
      ensures s.win.inflight[Before(s, b)[i]].retries == Resends(c, es, Before(s, b)[i])
    {
      RetriesAreResends(c, es, Before(s, b)[i]);
    }
  }
}
