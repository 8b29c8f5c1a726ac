/** What credit conservation buys: no frame is ever dropped while both ends are up, and the
    exact frame size up to which a sender can never be starved of credit. */
module RelayResults {
  import opened Wire
  import opened Relay
  import opened RelayFlow

  // ---------------------------------------------------------------- nothing is dropped

  /** In every run: sender credit, grants on their way back, bytes on their way out, bytes at
      the receiver and its ungranted residue make up one window once it has been granted. */
  lemma CreditConserved(es: seq<Event>)
    ensures var n := Exec(es);
            && Window(n.l, n.r, n.toR, n.toL, n.lostLR) == (if n.r.conn.ready then WINDOW_BYTES else 0)
            && Window(n.r, n.l, n.toL, n.toR, n.lostRL) == (if n.l.conn.ready then WINDOW_BYTES else 0)
            && 0 <= n.l.conn.credit <= WINDOW_BYTES && 0 <= n.r.conn.credit <= WINDOW_BYTES
  {
    hide Exec;
    ReachableKeepsInv(es);
    var n := Exec(es);
    FlowNonNegative(n.l, n.r, n.toR, n.toL, n.lostLR);
    FlowNonNegative(n.r, n.l, n.toL, n.toR, n.lostRL);
  }

  /** No write fails and neither end is closed. */
  predicate Healthy(es: seq<Event>) {
    forall e :: e in es ==> !e.act.Shut? && (e.act.Grant? || e.act.Send? ==> e.act.writeOk)
  }

  /** The early buffer takes every frame: an open end never discards one. */
  lemma EarlyBufferNeverDrops(es: seq<Event>, k: nat)
    requires k < |Exec(es).toL| && Exec(es).toL[k].Data? && !Exec(es).l.conn.closed
    ensures ReceiptOf(Exec(es).l.conn, Exec(es).toL[k].frame) != Discarded
  {
    hide Exec;
    ReachableKeepsInv(es);
    var n := Exec(es);
    BufferHasRoom(n.r, n.l, n.toL, n.toR, n.lostRL, k);
  }

  lemma ActLosesNothing(n: Net, a: Act)
    requires Inv(n) && !n.l.conn.closed && !n.r.conn.closed
    requires !a.Shut? && (a.Grant? ==> a.writeOk) && (a.Send? ==> a.writeOk)
    ensures var t := ActLeft(n, a);
            t.lostLR == n.lostLR && t.lostRL == n.lostRL && !t.l.conn.closed && !t.r.conn.closed
  {
    hide Flow;
    if a.Take? && a.k < |n.toL| && n.toL[a.k].Data? {
      BufferHasRoom(n.r, n.l, n.toL, n.toR, n.lostRL, a.k);
    }
  }

  lemma {:induction false} HealthyRunLosesNothing(es: seq<Event>)
    requires Healthy(es)
    ensures var n := Exec(es);
            && n.lostLR == Lost(0, []) && n.lostRL == Lost(0, [])
            && !n.l.conn.closed && !n.r.conn.closed
    decreases |es|
  {
    hide ActLeft, Flow;
    if es != [] {
      var init, e := es[..|es| - 1], es[|es| - 1];
      HealthyRunLosesNothing(init);
      ReachableKeepsInv(init);
      ActLosesNothing(if e.AtLeft? then Exec(init) else Mirror(Exec(init)), e.act);
    }
  }

  /** Every frame sent in a healthy run is in exactly one place: on the wire, in the early
      buffer, at the consumer, or delivered. */
  lemma EveryFrameHasOnePlace(es: seq<Event>)
    requires Healthy(es)
    ensures var n := Exec(es);
            multiset(n.l.sent) == multiset(Frames(n.toR)) + multiset(n.r.conn.pending) + multiset(n.r.busy)
                                  + multiset(n.r.delivered)
  {
    hide Exec, Healthy, Frames;
    HealthyRunLosesNothing(es);
    ReachableKeepsInv(es);
    var n := Exec(es);
    assert Placed(n.l, n.r, n.toR, n.lostLR);
    assert multiset(n.lostLR.frames) == multiset{};
  }

  // ---------------------------------------------------------------- the early buffer

  /** Frames arriving one after the other at an end without a consumer. */
  function Arrive(c: End, frames: seq<Payload>): End {
    if frames == [] then c else OnBinary(Arrive(c, frames[..|frames| - 1]), frames[|frames| - 1])
  }

  /** The consumer that is installed later gets what had arrived before it, in order and
      complete, as long as it is no more than a window. */
  lemma {:induction false} EarlyFramesInOrder(c: End, frames: seq<Payload>)
    requires !c.closed && !c.handler && c.pendingBytes == Bytes(c.pending)
    requires c.pendingBytes + Bytes(frames) <= WINDOW_BYTES
    ensures var d := Arrive(c, frames);
            && d == c.(pending := c.pending + frames, pendingBytes := c.pendingBytes + Bytes(frames))
            && Install(d).1 == c.pending + frames && Install(d).0.pending == []
    decreases |frames|
  {
    if frames != [] { EarlyFramesInOrder(c, frames[..|frames| - 1]); }
  }

  // ---------------------------------------------------------------- progress

  /** A step that only moves along what is already under way. */
  predicate Works(n: Net, e: Event) {
    var m := if e.AtLeft? then n else Mirror(n);
    match e.act
    case Take(k) => k < |m.toL|
    case Finish(k) => k < |m.l.busy|
    case Grant(k, writeOk) => k < |m.l.owed| && writeOk
    case _ => false
  }

  predicate Quiescent(n: Net) {
    n.toL == [] && n.toR == [] && n.l.busy == [] && n.r.busy == [] && n.l.owed == [] && n.r.owed == []
  }

  function Weight(n: Net): nat {
    4 * |Frames(n.toL)| + 4 * |Frames(n.toR)| + |Credits(n.toL)| + |Credits(n.toR)|
    + 3 * |n.l.busy| + 3 * |n.r.busy| + 2 * |n.l.owed| + 2 * |n.r.owed|
  }

  lemma WireRemoveCounts(w: seq<Packet>, k: nat)
    requires k < |w|
    ensures |Frames(w)| == |Frames(Remove(w, k))| + (if w[k].Data? then 1 else 0)
    ensures |Credits(w)| == |Credits(Remove(w, k))| + (if w[k].Credit? then 1 else 0)
  {
    SplitAt(w, k);
    WireConcat(w[..k] + [w[k]], w[k + 1..]);
    WireConcat(w[..k], [w[k]]);
    WireConcat(w[..k], w[k + 1..]);
    WireOne(w[k]);
  }

  lemma WorkShrinks(n: Net, e: Event)
    requires Works(n, e)
    ensures Weight(Apply(n, e)) < Weight(n)
  {
    hide Frames, Credits;
    var m := if e.AtLeft? then n else Mirror(n);
    match e.act {
      case Take(k) => WireRemoveCounts(m.toL, k);
      case Finish(k) =>
      case Grant(k, _) => WirePush(m.toR, Credit(m.l.owed[k]));
    }
  }

  function Run(n: Net, es: seq<Event>): Net {
    if es == [] then n else Apply(Run(n, es[..|es| - 1]), es[|es| - 1])
  }

  predicate Working(n: Net, es: seq<Event>) {
    es == [] || (Working(n, es[..|es| - 1]) && Works(Run(n, es[..|es| - 1]), es[|es| - 1]))
  }

  /** What is under way settles after boundedly many steps, whatever their order. */
  lemma {:induction false} WorkEnds(n: Net, es: seq<Event>)
    requires Working(n, es)
    ensures |es| + Weight(Run(n, es)) <= Weight(n)
    decreases |es|
  {
    hide Works, Apply, Weight;
    if es != [] {
      WorkEnds(n, es[..|es| - 1]);
      WorkShrinks(Run(n, es[..|es| - 1]), es[|es| - 1]);
    }
  }

  function Pick(n: Net): Event
    requires !Quiescent(n)
  {
    if n.toL != [] then AtLeft(Take(0))
    else if n.toR != [] then AtRight(Take(0))
    else if n.l.busy != [] then AtLeft(Finish(0))
    else if n.r.busy != [] then AtRight(Finish(0))
    else if n.l.owed != [] then AtLeft(Grant(0, true))
    else AtRight(Grant(0, true))
  }

  lemma PickWorks(n: Net)
    requires !Quiescent(n)
    ensures Works(n, Pick(n))
  {}

  /** Both ends agreed on the relay and the right end has a consumer. */
  predicate Up(n: Net) {
    n.l.conn.ready && n.r.conn.ready && n.r.conn.handler && !n.l.conn.closed && !n.r.conn.closed
  }

  lemma WorkKeepsUp(n: Net, e: Event)
    requires Inv(n) && Works(n, e) && Up(n) && n.lostLR.bytes == 0
    ensures Inv(Apply(n, e)) && Up(Apply(n, e)) && Apply(n, e).lostLR.bytes == 0
  {
    hide Flow;
    ActKeepsInv(if e.AtLeft? then n else Mirror(n), e.act);
    ActLosesNothing(if e.AtLeft? then n else Mirror(n), e.act);
  }

  /** When nothing is under way the sender holds more than half of the window. */
  lemma QuiescentCredit(n: Net)
    requires Inv(n) && Quiescent(n) && Up(n) && n.lostLR.bytes == 0
    ensures n.l.conn.credit == WINDOW_BYTES - n.r.conn.consumed > WINDOW_BYTES - CREDIT_BATCH
  {}

  lemma Snoc(n: Net, es: seq<Event>, e: Event)
    ensures Run(n, es + [e]) == Apply(Run(n, es), e)
    ensures Working(n, es) && Works(Run(n, es), e) ==> Working(n, es + [e])
  {
    assert (es + [e])[..|es + [e]| - 1] == es;
  }

  /** Any run of pending work that has nothing left to do ends with room for the frame. */
  lemma {:induction false} WorkKeepsAll(n: Net, es: seq<Event>)
    requires Inv(n) && Up(n) && n.lostLR.bytes == 0 && Working(n, es)
    ensures Inv(Run(n, es)) && Up(Run(n, es)) && Run(n, es).lostLR.bytes == 0
    decreases |es|
  {
    hide Works, Apply, Inv, Up;
    if es != [] {
      WorkKeepsAll(n, es[..|es| - 1]);
      WorkKeepsUp(Run(n, es[..|es| - 1]), es[|es| - 1]);
    }
  }

  lemma {:induction false} SettlesFrom(n: Net, es: seq<Event>) returns (all: seq<Event>)
    requires Working(n, es)
    ensures Working(n, all) && Quiescent(Run(n, all))
    decreases Weight(Run(n, es))
  {
    hide Works, Apply, Weight;
    if Quiescent(Run(n, es)) {
      all := es;
    } else {
      var e := Pick(Run(n, es));
      PickWorks(Run(n, es));
      Snoc(n, es, e);
      WorkShrinks(Run(n, es), e);
      all := SettlesFrom(n, es + [e]);
    }
  }

  /** A frame of at most half a window plus one byte is always eventually sendable: pending
      work settles after boundedly many steps in whatever order, and then there is credit. */
  lemma AlwaysEventuallySendable(es: seq<Event>, size: nat)
    requires Healthy(es) && Up(Exec(es)) && size <= WINDOW_BYTES - CREDIT_BATCH + 1
    ensures exists work :: Working(Exec(es), work) && Quiescent(Run(Exec(es), work))
    ensures forall work :: Working(Exec(es), work) ==>
              && |work| <= Weight(Exec(es))
              && (Quiescent(Run(Exec(es), work)) ==> SendStatus(Run(Exec(es), work).l.conn, size) == Sends)
  {
    hide Exec, Healthy, Working, Works, Weight, Quiescent, Inv, Run;
    HealthyRunLosesNothing(es);
    ReachableKeepsInv(es);
    var n := Exec(es);
    assert Working(n, []) by { NoWork(n); }
    var all := SettlesFrom(n, []);
    forall work | Working(n, work)
      ensures |work| <= Weight(n) && (Quiescent(Run(n, work)) ==> SendStatus(Run(n, work).l.conn, size) == Sends)
    {
      WorkEnds(n, work);
      WorkKeepsAll(n, work);
      if Quiescent(Run(n, work)) { QuiescentCredit(Run(n, work)); }
    }
  }

  lemma NoWork(n: Net)
    ensures Working(n, [])
  {}

  // ---------------------------------------------------------------- the bound is exact

  /** One byte less than a batch: consumed, but never granted back. */
  function Crumb(): Payload { seq(CREDIT_BATCH - 1, _ => 0) }

  lemma ExecSnoc(es: seq<Event>, e: Event)
    ensures Exec(es + [e]) == Apply(Exec(es), e)
    ensures Healthy(es) && !e.act.Shut? && (e.act.Grant? || e.act.Send? ==> e.act.writeOk) ==> Healthy(es + [e])
  {
    assert (es + [e])[..|es|] == es;
  }

  /** Both ends granted their windows and the right end has its consumer. */
  const Opened: Net :=
    FreshNet.(l := FreshSide.(conn := FreshEnd.(ready := true, credit := WINDOW_BYTES)),
              r := FreshSide.(conn := FreshEnd.(ready := true, credit := WINDOW_BYTES, handler := true)))

  lemma OpeningRun() returns (es: seq<Event>)
    ensures Exec(es) == Opened && Healthy(es)
  {
    hide Exec, Healthy;
    es := [];
    assert Exec(es) == FreshNet && Healthy(es) by { EmptyRun(); }
    var l, r := FreshSide.(conn := FreshEnd.(ready := true)), FreshSide.(conn := FreshEnd.(ready := true));
    ExecSnoc(es, AtLeft(Ready));
    es := es + [AtLeft(Ready)];
    assert Exec(es) == FreshNet.(l := l.(owed := [WINDOW_BYTES]));
    ExecSnoc(es, AtRight(Ready));
    es := es + [AtRight(Ready)];
    assert Exec(es) == FreshNet.(l := l.(owed := [WINDOW_BYTES]), r := r.(owed := [WINDOW_BYTES]));
    ExecSnoc(es, AtLeft(Grant(0, true)));
    es := es + [AtLeft(Grant(0, true))];
    assert Exec(es) == FreshNet.(l := l, r := r.(owed := [WINDOW_BYTES]), toR := [Credit(WINDOW_BYTES)]);
    ExecSnoc(es, AtRight(Take(0)));
    es := es + [AtRight(Take(0))];
    r := r.(conn := r.conn.(credit := WINDOW_BYTES));
    assert Exec(es) == FreshNet.(l := l, r := r.(owed := [WINDOW_BYTES]));
    es := RightGrants(es, l, r);
  }

  lemma RightGrants(prior: seq<Event>, l: Side, r: Side) returns (es: seq<Event>)
    requires Healthy(prior) && Exec(prior) == FreshNet.(l := l, r := r.(owed := [WINDOW_BYTES]))
    requires l == FreshSide.(conn := FreshEnd.(ready := true))
    requires r == FreshSide.(conn := FreshEnd.(ready := true, credit := WINDOW_BYTES))
    ensures Exec(es) == Opened && Healthy(es)
  {
    hide Exec, Healthy;
    es := prior;
    ExecSnoc(es, AtRight(Grant(0, true)));
    es := es + [AtRight(Grant(0, true))];
    assert Exec(es) == FreshNet.(l := l, r := r, toL := [Credit(WINDOW_BYTES)]);
    ExecSnoc(es, AtLeft(Take(0)));
    es := es + [AtLeft(Take(0))];
    assert Exec(es) == FreshNet.(l := l.(conn := l.conn.(credit := WINDOW_BYTES)), r := r);
    ExecSnoc(es, AtRight(InstallHandler));
    es := es + [AtRight(InstallHandler)];
  }

  lemma EmptyRun()
    ensures Exec([]) == FreshNet && Healthy([])
  {}

  /** A reachable state with nothing under way and the least possible credit. */
  lemma StallRun() returns (es: seq<Event>)
    ensures var n := Exec(es);
            Quiescent(n) && Up(n) && n.l.conn.credit == WINDOW_BYTES - CREDIT_BATCH + 1
    ensures Healthy(es)
  {
    hide Exec, Healthy, Crumb;
    es := OpeningRun();
    assert |Crumb()| == CREDIT_BATCH - 1 by { CrumbSize(); }
    ExecSnoc(es, AtLeft(Send(Crumb(), true)));
    es := es + [AtLeft(Send(Crumb(), true))];
    var l := Opened.l.(conn := Opened.l.conn.(credit := WINDOW_BYTES - CREDIT_BATCH + 1), sent := [Crumb()]);
    assert Exec(es) == Opened.(l := l, toR := [Data(Crumb())]);
    ExecSnoc(es, AtRight(Take(0)));
    es := es + [AtRight(Take(0))];
    assert Exec(es) == Opened.(l := l, r := Opened.r.(busy := [Crumb()]));
    ExecSnoc(es, AtRight(Finish(0)));
    es := es + [AtRight(Finish(0))];
  }

  lemma CrumbSize()
    ensures |Crumb()| == CREDIT_BATCH - 1
  {}

  /** The sizes a sender is never starved of are exactly those up to half a window plus one. */
  lemma SendableExactly(size: nat)
    ensures (forall es :: Healthy(es) && Up(Exec(es)) && Quiescent(Exec(es)) ==> SendStatus(Exec(es).l.conn, size) == Sends)
            <==> size <= WINDOW_BYTES - CREDIT_BATCH + 1
  {
    hide Exec, Healthy, Quiescent;
    if size <= WINDOW_BYTES - CREDIT_BATCH + 1 {
      forall es | Healthy(es) && Up(Exec(es)) && Quiescent(Exec(es))
        ensures SendStatus(Exec(es).l.conn, size) == Sends
      {
        HealthyRunLosesNothing(es);
        ReachableKeepsInv(es);
        QuiescentCredit(Exec(es));
      }
    } else {
      var es := StallRun();
      assert SendStatus(Exec(es).l.conn, size) == Waits;
    }
  }
}
