/** Replies arriving at the sender keep a scene sound. */
module CompletionReplies {
  import opened Wire
  import opened Geometry
  import opened ReceiverSafety
  import opened Cutover
  import opened Completion
  import S = SenderModel
  import W = SenderWindow
  import R = ReceiverModel

  /** The first reply on its way arrives under counter `k`. */
  function AfterReply(c: S.Config, v: Scene, k: nat): Scene
    requires v.q != []
  {
    v.(s := S.Handle(c, v.s, Sealed(k, v.q[0])), q := v.q[1..])
  }

  /** Acks name committed blocks, and Done is said once all is delivered. */
  predicate RepliesKnown(x: Setup, v: Scene) {
    && (forall i :: 0 <= i < |v.q| && v.q[i].Ack? ==> IsCommitted(x, v.r.prog, v.q[i].ackFile, v.q[i].ackBlock))
    && (forall i :: 0 <= i < |v.q| && v.q[i].Done? ==> v.r.out.closed)
    && W.QueueOk(v.s.win)
  }

  /** What has not arrived yet is still on its way. */
  lemma Rest(q: seq<Msg>)
    requires q != []
    ensures q == [q[0]] + q[1..]
    ensures HasResume(q) ==> q[0].ResumeMsg? || HasResume(q[1..])
    ensures HasDone(q) ==> q[0].Done? || HasDone(q[1..])
    ensures forall m :: m in q <==> m == q[0] || m in q[1..]
  {
    if HasResume(q) && !q[0].ResumeMsg? { var i :| 0 <= i < |q| && q[i].ResumeMsg?; assert q[1..][i - 1].ResumeMsg?; }
    if HasDone(q) && !q[0].Done? { var i :| 0 <= i < |q| && q[i].Done?; assert q[1..][i - 1].Done?; }
    assert q == [q[0]] + q[1..];
  }

  /** A reply that leaves the window alone. */
  lemma QuietReply(x: Setup, v: Scene, w: Scene)
    requires Good(x, v) && v.q != [] && w.r == v.r && w.p == v.p && w.q == v.q[1..]
    requires w.s.pc == v.s.pc && w.s.win == v.s.win && w.s.tally.active == v.s.tally.active && w.s.paused == v.s.paused
    requires w.s.completeSent == v.s.completeSent && Alive(w) && PlanComing(x.c, w) && DoneComing(w)
    requires v.q[0].Ack? || v.q[0].Nack? ==>
               (v.q[0].Ack? ==> v.q[0] != Ack(v.s.tally.active, v.q[0].ackBlock) || v.q[0].ackBlock !in v.s.win.inflight)
               && (v.q[0].Nack? ==> v.q[0] != Nack(v.s.tally.active, v.q[0].nackBlock)
                                    || v.q[0].nackBlock !in v.s.win.inflight || v.q[0].nackBlock in v.s.win.queue)
    ensures Good(x, w)
  {
    hide InPipe, Noted, Track, MayAsk, Alive;
    Rest(v.q);
    forall b | b in w.s.win.inflight && W.InFile(w.s.pc)
      ensures Covered(x.c, w, b) && Spent(x, w, b) <= x.c.maxRetries
    {
      assert Covered(x.c, v, b) && Spent(x, v, b) <= x.c.maxRetries;
    }
  }

  /** An ack takes its block out of the window. */
  lemma AckReply(x: Setup, v: Scene, w: Scene, b: int)
    requires Good(x, v) && RepliesKnown(x, v) && v.q != [] && v.q[0] == Ack(v.s.tally.active, b)
    requires b in v.s.win.inflight
    requires w.r == v.r && w.p == v.p && w.q == v.q[1..] && w.s.outcome == v.s.outcome == Running
    requires w.s.pc == v.s.pc && w.s.tally.active == v.s.tally.active && w.s.paused == v.s.paused
    requires w.s.plan == v.s.plan
    requires w.s.completeSent == v.s.completeSent
    requires w.s.win == v.s.win.(inflight := v.s.win.inflight - {b}, queued := v.s.win.queued - {b})
    ensures Good(x, w)
  {
    hide InPipe, Track, MayAsk;
    Rest(v.q);
    assert IsCommitted(x, v.r.prog, v.s.tally.active, b);
    forall k | k in w.s.win.inflight && W.InFile(w.s.pc)
      ensures Covered(x.c, w, k) && Spent(x, w, k) <= x.c.maxRetries
    {
      assert Covered(x.c, v, k) && Spent(x, v, k) <= x.c.maxRetries;
    }
  }

  /** A nack queues its block. */
  lemma NackReply(x: Setup, v: Scene, w: Scene, b: int)
    requires Good(x, v) && v.q != [] && v.q[0] == Nack(v.s.tally.active, b)
    requires b in v.s.win.inflight && b !in v.s.win.queue
    requires w.r == v.r && w.p == v.p && w.q == v.q[1..] && w.s.outcome == v.s.outcome == Running
    requires w.s.pc == v.s.pc && w.s.tally.active == v.s.tally.active && w.s.paused == v.s.paused
    requires w.s.plan == v.s.plan
    requires w.s.completeSent == v.s.completeSent
    requires w.s.win == v.s.win.(queue := v.s.win.queue + [b], queued := v.s.win.queued + {b})
    ensures Good(x, w)
  {
    hide InPipe, Noted, Track, MayAsk;
    Rest(v.q);
    forall k | k in w.s.win.inflight && W.InFile(w.s.pc)
      ensures Covered(x.c, w, k) && Spent(x, w, k) <= x.c.maxRetries
    {
      assert Covered(x.c, v, k) && Spent(x, v, k) <= x.c.maxRetries;
      assert k in w.s.win.queue <==> k in v.s.win.queue || k == b;
    }
  }

  /** A settled sender takes no notice. */
  lemma ReplySettled(x: Setup, v: Scene, k: nat)
    requires Good(x, v) && v.q != [] && v.s.outcome != Running
    ensures Good(x, AfterReply(x.c, v, k))
  {
    assert !W.InFile(v.s.pc);
    Rest(v.q);
    hide AllCovered, BudgetOk, HasResume, HasDone;
    var w := AfterReply(x.c, v, k);
    assert w == v.(q := v.q[1..]);
  }

  lemma ReplyKeepsGood(x: Setup, v: Scene, k: nat)
    requires Good(x, v) && RepliesKnown(x, v) && v.q != [] && v.s.link.recvCounter <= k
    requires !S.Handle(x.c, v.s, Sealed(k, v.q[0])).outcome.Failed?
    ensures Good(x, AfterReply(x.c, v, k))
  {
    if v.s.outcome != Running {
      ReplySettled(x, v, k);
    } else {
      Rest(v.q);
      var w, m := AfterReply(x.c, v, k), v.q[0];
      assert Back(m) && Alive(w) && PlanComing(x.c, w) && DoneComing(w) by {
        hide InPipe, Noted, Track, MayAsk, AllCovered, BudgetOk, NotedOk, BoundOk, S.BuildPlan;
      }
      hide Good, S.BuildPlan, HasResume, HasDone;
      if m.Ack? && m.ackFile == v.s.tally.active && m.ackBlock in v.s.win.inflight {
        AckReply(x, v, w, m.ackBlock);
      } else if m.Nack? && m.nackFile == v.s.tally.active && m.nackBlock in v.s.win.inflight && m.nackBlock !in v.s.win.queue {
        NackReply(x, v, w, m.nackBlock);
      } else {
        QuietReply(x, v, w);
      }
    }
  }
}
