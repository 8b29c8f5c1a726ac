/** The handshake as the two preambles carry it: sealed frames on an ordered channel, each one
    handed over next or, at a path change, once more. Nothing goes wrong, every new frame is
    progress, and once all frames are in both preambles have settled on the same keys. */
module PreambleHandshake {
  import opened Wire
  import opened ResumeAuth
  import P = Preamble
  import H = Handshake

  /** The two preambles, and the counters the rendezvous left to each direction. */
  datatype Line = Line(o: P.Pre, j: P.Pre, fromO: nat, fromJ: nat)

  datatype Move = StartOfferer(nonce: seq<byte>) | StartJoiner | ToJoiner(i: nat, nonce: seq<byte>) | ToOfferer(i: nat)

  function Opening(fromO: nat, fromJ: nat): Line { Line(P.Begin(fromO, fromJ), P.Begin(fromJ, fromO), fromO, fromJ) }

  /** A frame as it was sealed. */
  function FrameOf(s: P.Seal): P.SessionFrame { P.Authentic(s.counter, true, Canonical(s.msg)) }

  function Play(co: Context, cj: Context, x: Line, m: Move): Line {
    match m
    case StartOfferer(nonce) => x.(o := P.StartStep(co, x.o, Some(nonce), true))
    case StartJoiner => x.(j := P.StartStep(cj, x.j, None, true))
    case ToJoiner(i, nonce) =>
      if i >= |x.o.seals| then x else x.(j := P.HandleStep(cj, x.j, FrameOf(x.o.seals[i]), Some(nonce), true))
    case ToOfferer(i) =>
      if i >= |x.j.seals| then x else x.(o := P.HandleStep(co, x.o, FrameOf(x.j.seals[i]), None, true))
  }

  /** How many frames of its peer each end has taken. */
  function TakenByJ(x: Line): int { x.j.counters.recv - x.fromO }

  function TakenByO(x: Line): int { x.o.counters.recv - x.fromJ }

  /** The next frame in order, or the last one again; nonce sources work. */
  predicate InOrder(x: Line, m: Move) {
    match m
    case StartOfferer(nonce) => |nonce| == NONCE_BYTES
    case StartJoiner => true
    case ToJoiner(i, nonce) => |nonce| == NONCE_BYTES && (i == TakenByJ(x) || i + 1 == TakenByJ(x))
    case ToOfferer(i) => i == TakenByO(x) || i + 1 == TakenByO(x)
  }

  function Played(co: Context, cj: Context, a: nat, b: nat, ms: seq<Move>): Line {
    if ms == [] then Opening(a, b) else Play(co, cj, Played(co, cj, a, b, ms[..|ms| - 1]), ms[|ms| - 1])
  }

  predicate AllInOrder(co: Context, cj: Context, a: nat, b: nat, ms: seq<Move>) {
    ms == [] ||
    (AllInOrder(co, cj, a, b, ms[..|ms| - 1]) && InOrder(Played(co, cj, a, b, ms[..|ms| - 1]), ms[|ms| - 1]))
  }

  // ---------------------------------------------------------------- the pair of sessions inside

  function Messages(seals: seq<P.Seal>): seq<Message> {
    seq(|seals|, i requires 0 <= i < |seals| => seals[i].msg)
  }

  function PairOf(x: Line): H.Pair { H.Pair(x.o.auth, x.j.auth, Messages(x.o.seals), Messages(x.j.seals)) }

  /** One end: nothing has gone wrong, its result is its session's, and it can tell its last
      frame again. */
  predicate EndStands(p: P.Pre, start: nat, other: seq<P.Seal>, peer: nat) {
    && p.outcome.err == None && p.outcome.result == p.auth.result
    && p.outcome.closes == (if p.outcome.result.Some? then 1 else 0)
    && p.counters.send == start + |p.seals| && (forall i :: 0 <= i < |p.seals| ==> p.seals[i].counter == start + i)
    && peer <= p.counters.recv <= peer + |other|
    && (p.counters.recv > peer ==> p.lastAccepted == Some(Canonical(other[p.counters.recv - peer - 1].msg)))
  }

  predicate Stands(co: Context, x: Line) {
    && H.Stands(co, PairOf(x))
    && EndStands(x.o, x.fromO, x.j.seals, x.fromJ) && EndStands(x.j, x.fromJ, x.o.seals, x.fromO)
    && Tracks(x)
  }

  /** How far each end has got follows from the frames it has taken. */
  predicate Tracks(x: Line) {
    && TakenByJ(x) <= |x.o.seals| && TakenByO(x) <= |x.j.seals|
    && x.o.started == !x.o.auth.phase.Idle?
    && (x.j.auth.phase.Idle? ==> TakenByJ(x) == 0)
    && (x.o.auth.phase.AwaitChallenge? ==> TakenByO(x) == 0)
    && (!x.j.auth.phase.Done? ==> forall i :: 0 <= i < TakenByJ(x) ==> x.o.seals[i].msg.kind != Confirm)
    && (!x.o.auth.phase.Done? ==> forall i :: 0 <= i < TakenByO(x) ==> x.j.seals[i].msg.kind != Ready)
  }

  lemma MessagesPush(seals: seq<P.Seal>, s: P.Seal)
    ensures Messages(seals + [s]) == Messages(seals) + [s.msg]
  {}

  /** A delivered frame is opened: the next one, or the last one again. */
  lemma FrameOpens(p: P.Pre, start: nat, other: seq<P.Seal>, peer: nat, i: nat)
    requires EndStands(p, start, other, peer) && i < |other|
    requires forall k :: 0 <= k < |other| ==> other[k].counter == peer + k
    requires i == p.counters.recv - peer || i + 1 == p.counters.recv - peer
    ensures P.Open(p, FrameOf(other[i]))
            == P.Opened(Canonical(other[i].msg), if i == p.counters.recv - peer then p.counters.recv + 1 else p.counters.recv)
  {}

  /** An opened frame goes to the session, which answers without an error. */
  lemma EndTakes(c: Context, p: P.Pre, start: nat, other: seq<P.Seal>, peer: nat, i: nat, nonce: Option<seq<byte>>)
    requires EndStands(p, start, other, peer) && i < |other| && p.outcome.result == None
    requires forall k :: 0 <= k < |other| ==> other[k].counter == peer + k
    requires i == p.counters.recv - peer || i + 1 == p.counters.recv - peer
    requires var t := Handle(c, p.auth, Canonical(other[i].msg), nonce);
             t.reply.error == None && t.reply.result == t.state.result
    ensures var q := P.HandleStep(c, p, FrameOf(other[i]), nonce, true);
            var t := Handle(c, p.auth, Canonical(other[i].msg), nonce);
            && EndStands(q, start, other, peer) && q.started == p.started && q.auth == t.state
            && q.counters.recv == (if i == p.counters.recv - peer then p.counters.recv + 1 else p.counters.recv)
            && q.seals == p.seals + (if t.reply.out.Some? then [P.Seal(p.counters.send, t.reply.out.value)] else [])
  {
    hide Handle, Canonical;
    FrameOpens(p, start, other, peer, i);
  }

  /** Opened frames go to the session as the pair of sessions has it. */
  lemma ToJoinerIs(co: Context, cj: Context, x: Line, i: nat, nonce: seq<byte>)
    requires H.Matching(co, cj) && Stands(co, x) && i < |x.o.seals| && InOrder(x, ToJoiner(i, nonce))
    requires x.j.outcome.result == None
    ensures var y := Play(co, cj, x, ToJoiner(i, nonce));
            && PairOf(y) == H.Play(co, cj, PairOf(x), H.ToJoiner(i, nonce))
            && EndStands(y.j, y.fromJ, y.o.seals, y.fromO) && y.o == x.o && y.j.started == x.j.started
            && TakenByJ(y) == (if i == TakenByJ(x) then i + 1 else TakenByJ(x))
            && x.j.seals <= y.j.seals
  {
    hide H.Stands, Handle, H.Matching, P.HandleStep;
    var t := Handle(cj, x.j.auth, Canonical(x.o.seals[i].msg), Some(nonce));
    SessionAnswers(co, cj, x, i, nonce);
    EndTakes(cj, x.j, x.fromJ, x.o.seals, x.fromO, i, Some(nonce));
    if t.reply.out.Some? { MessagesPush(x.j.seals, P.Seal(x.j.counters.send, t.reply.out.value)); }
  }

  /** The session inside answers without an error, and reports a result exactly when it has one. */
  lemma SessionAnswers(co: Context, cj: Context, x: Line, i: nat, nonce: seq<byte>)
    requires H.Matching(co, cj) && H.Stands(co, PairOf(x)) && i < |x.o.seals| && |nonce| == NONCE_BYTES
    ensures var t := Handle(cj, x.j.auth, Canonical(x.o.seals[i].msg), Some(nonce));
            t.reply.error == None && t.reply.result == t.state.result
  {
    hide Transcript, ContextOk;
    H.PlayStands(co, cj, PairOf(x), H.ToJoiner(i, nonce));
    NoErrorUnlessFailed(cj, x.j.auth, Canonical(x.o.seals[i].msg), Some(nonce));
  }

  lemma NoErrorUnlessFailed(c: Context, s: State, p: Payload, nonce: Option<seq<byte>>)
    requires !s.phase.Failed? && (s.phase.Done? <==> s.result.Some?)
    ensures var t := Handle(c, s, p, nonce);
            !t.state.phase.Failed? ==> t.reply.error == None && t.reply.result == t.state.result
  {
    hide Transcript, FindStep;
  }

  lemma ToOffererIs(co: Context, cj: Context, x: Line, i: nat)
    requires H.Matching(co, cj) && Stands(co, x) && i < |x.j.seals| && InOrder(x, ToOfferer(i))
    requires x.o.outcome.result == None
    ensures var y := Play(co, cj, x, ToOfferer(i));
            && PairOf(y) == H.Play(co, cj, PairOf(x), H.ToOfferer(i))
            && EndStands(y.o, y.fromO, y.j.seals, y.fromJ) && y.j == x.j && y.o.started == x.o.started
            && TakenByO(y) == (if i == TakenByO(x) then i + 1 else TakenByO(x))
            && x.o.seals <= y.o.seals
  {
    hide H.Stands, Handle, H.Matching, P.HandleStep;
    var t := Handle(co, x.o.auth, Canonical(x.j.seals[i].msg), None);
    OffererAnswers(co, cj, x, i);
    EndTakes(co, x.o, x.fromO, x.j.seals, x.fromJ, i, None);
    if t.reply.out.Some? { MessagesPush(x.o.seals, P.Seal(x.o.counters.send, t.reply.out.value)); }
  }

  lemma OffererAnswers(co: Context, cj: Context, x: Line, i: nat)
    requires H.Matching(co, cj) && H.Stands(co, PairOf(x)) && i < |x.j.seals|
    ensures var t := Handle(co, x.o.auth, Canonical(x.j.seals[i].msg), None);
            t.reply.error == None && t.reply.result == t.state.result
  {
    hide Transcript, ContextOk;
    H.PlayStands(co, cj, PairOf(x), H.ToOfferer(i));
    NoErrorUnlessFailed(co, x.o.auth, Canonical(x.j.seals[i].msg), None);
  }

  // ---------------------------------------------------------------- every move keeps the line sound

  /** What a delivery to the joiner makes of its phase. */
  lemma JoinerMoves(co: Context, cj: Context, p: H.Pair, i: nat, nonce: seq<byte>)
    requires H.Matching(co, cj) && H.Stands(co, p) && |nonce| == NONCE_BYTES && i < |p.fromO|
    ensures var q := H.Play(co, cj, p, H.ToJoiner(i, nonce));
            && H.Stands(co, q) && (p.fromO[i].kind == Confirm ==> q.j.phase.Done?)
            && (p.j.phase.Done? ==> q.j.phase.Done?)
            && (i == 0 || !p.j.phase.Idle? ==> !q.j.phase.Idle?)
  {
    hide Transcript, ContextOk, Take;
    H.PlayStands(co, cj, p, H.ToJoiner(i, nonce));
    if p.fromO[i].kind == Confirm { H.ConfirmDelivered(co, cj, p, i, nonce); }
    if i == 0 { H.InitDelivered(co, cj, p, nonce); }
    TakeMonotone(cj, p.j, HandleCall(Canonical(p.fromO[i]), Some(nonce)));
  }

  lemma ToJoinerStands(co: Context, cj: Context, x: Line, i: nat, nonce: seq<byte>)
    requires H.Matching(co, cj) && Stands(co, x) && InOrder(x, ToJoiner(i, nonce))
    ensures Stands(co, Play(co, cj, x, ToJoiner(i, nonce)))
  {
    if i < |x.o.seals| && x.j.outcome.result == None {
      JoinerMoves(co, cj, PairOf(x), i, nonce);
      ToJoinerIs(co, cj, x, i, nonce);
      hide Play, H.Stands, H.Matching, EndStands, Tracks, H.Play;
      var y := Play(co, cj, x, ToJoiner(i, nonce));
      OtherLonger(x.o, x.fromO, x.j.seals, y.j.seals, x.fromJ);
      JoinerTracks(x, y, i);
    }
  }

  lemma JoinerTracks(x: Line, y: Line, i: nat)
    requires Tracks(x) && y.o == x.o && y.fromO == x.fromO && y.fromJ == x.fromJ && x.j.seals <= y.j.seals
    requires i < |x.o.seals| && i <= TakenByJ(x) && TakenByJ(y) == if i == TakenByJ(x) then i + 1 else TakenByJ(x)
    requires x.o.seals[i].msg.kind == Confirm ==> y.j.auth.phase.Done?
    requires x.j.auth.phase.Done? ==> y.j.auth.phase.Done?
    requires i == 0 || !x.j.auth.phase.Idle? ==> !y.j.auth.phase.Idle?
    ensures Tracks(y)
  {
    assert forall k :: 0 <= k < |x.j.seals| ==> y.j.seals[k] == x.j.seals[k];
  }

  lemma EndCounts(p: P.Pre, start: nat, other: seq<P.Seal>, peer: nat)
    requires EndStands(p, start, other, peer)
    ensures peer <= p.counters.recv <= peer + |other|
  {}

  lemma OtherLonger(p: P.Pre, start: nat, other: seq<P.Seal>, more: seq<P.Seal>, peer: nat)
    requires EndStands(p, start, other, peer) && other <= more
    ensures EndStands(p, start, more, peer)
  {}

  lemma OffererMoves(co: Context, cj: Context, p: H.Pair, i: nat)
    requires H.Matching(co, cj) && H.Stands(co, p) && i < |p.fromJ|
    ensures var q := H.Play(co, cj, p, H.ToOfferer(i));
            && H.Stands(co, q) && (p.fromJ[i].kind == Ready ==> q.o.phase.Done?)
            && (p.o.phase.Done? ==> q.o.phase.Done?)
            && !q.o.phase.Idle? && !p.o.phase.Idle?
            && (i == 0 || !p.o.phase.AwaitChallenge? ==> !q.o.phase.AwaitChallenge?)
  {
    hide Transcript, ContextOk, Take;
    H.PlayStands(co, cj, p, H.ToOfferer(i));
    if p.fromJ[i].kind == Ready { H.ReadyDelivered(co, cj, p, i); }
    if i == 0 { H.ChallengeDelivered(co, cj, p); }
    TakeMonotone(co, p.o, HandleCall(Canonical(p.fromJ[i]), None));
  }

  lemma ToOffererStands(co: Context, cj: Context, x: Line, i: nat)
    requires H.Matching(co, cj) && Stands(co, x) && InOrder(x, ToOfferer(i))
    ensures Stands(co, Play(co, cj, x, ToOfferer(i)))
  {
    if i < |x.j.seals| && x.o.outcome.result == None {
      OffererMoves(co, cj, PairOf(x), i);
      ToOffererIs(co, cj, x, i);
      hide Play, H.Stands, H.Matching, EndStands, Tracks, H.Play;
      var y := Play(co, cj, x, ToOfferer(i));
      OtherLonger(x.j, x.fromJ, x.o.seals, y.o.seals, x.fromO);
      OffererTracks(x, y, i);
    }
  }

  lemma OffererTracks(x: Line, y: Line, i: nat)
    requires Tracks(x) && y.j == x.j && y.fromO == x.fromO && y.fromJ == x.fromJ && x.o.seals <= y.o.seals
    requires i < |x.j.seals| && i <= TakenByO(x) && TakenByO(y) == if i == TakenByO(x) then i + 1 else TakenByO(x)
    requires x.j.seals[i].msg.kind == Ready ==> y.o.auth.phase.Done?
    requires x.o.auth.phase.Done? ==> y.o.auth.phase.Done?
    requires !x.o.auth.phase.Idle? && !y.o.auth.phase.Idle? && y.o.started == x.o.started
    requires i == 0 || !x.o.auth.phase.AwaitChallenge? ==> !y.o.auth.phase.AwaitChallenge?
    ensures Tracks(y)
  {
    assert forall k :: 0 <= k < |x.o.seals| ==> y.o.seals[k] == x.o.seals[k];
  }

  lemma StartStands(co: Context, cj: Context, x: Line, nonce: seq<byte>)
    requires H.Matching(co, cj) && Stands(co, x) && |nonce| == NONCE_BYTES
    ensures Stands(co, Play(co, cj, x, StartOfferer(nonce))) && Play(co, cj, x, StartOfferer(nonce)).o.started
  {
    hide Transcript, ContextOk;
    if !x.o.started {
      H.PlayStands(co, cj, PairOf(x), H.StartOfferer(nonce));
      MessagesPush(x.o.seals, P.Seal(x.o.counters.send, InitMessage(nonce)));
      var y := Play(co, cj, x, StartOfferer(nonce));
      assert PairOf(y) == H.Play(co, cj, PairOf(x), H.StartOfferer(nonce));
      hide H.Stands;
      OtherLonger(x.j, x.fromJ, x.o.seals, y.o.seals, x.fromO);
    }
  }

  lemma PlayStands(co: Context, cj: Context, x: Line, m: Move)
    requires H.Matching(co, cj) && Stands(co, x) && InOrder(x, m)
    ensures Stands(co, Play(co, cj, x, m))
  {
    hide H.Stands, H.Matching, Stands;
    match m {
      case StartOfferer(nonce) => StartStands(co, cj, x, nonce);
      case StartJoiner => JoinerStart(co, cj, x);
      case ToJoiner(i, nonce) => ToJoinerStands(co, cj, x, i, nonce);
      case ToOfferer(i) => ToOffererStands(co, cj, x, i);
    }
  }

  lemma JoinerStart(co: Context, cj: Context, x: Line)
    requires H.Matching(co, cj) && Stands(co, x)
    ensures Stands(co, Play(co, cj, x, StartJoiner))
  {
    hide H.Stands;
  }

  lemma OpeningStands(co: Context, a: nat, b: nat)
    ensures Stands(co, Opening(a, b))
  {
    hide Transcript;
  }

  lemma {:induction false} LineStands(co: Context, cj: Context, a: nat, b: nat, ms: seq<Move>)
    requires H.Matching(co, cj) && AllInOrder(co, cj, a, b, ms)
    ensures Stands(co, Played(co, cj, a, b, ms))
    decreases |ms|
  {
    hide Play, Stands, H.Matching, InOrder;
    if ms == [] {
      OpeningStands(co, a, b);
    } else {
      LineStands(co, cj, a, b, ms[..|ms| - 1]);
      PlayStands(co, cj, Played(co, cj, a, b, ms[..|ms| - 1]), ms[|ms| - 1]);
    }
  }

  // ---------------------------------------------------------------- progress

  /** How many messages may still follow one, itself included. */
  function Weight(m: Message): nat {
    match m.kind
    case Init => 4
    case Challenge => 3
    case Confirm => 2
    case Ready => 1
    case Unknown => 0
  }

  function Total(seals: seq<P.Seal>): nat {
    if seals == [] then 0 else Total(seals[..|seals| - 1]) + Weight(seals[|seals| - 1].msg)
  }

  lemma {:induction false} TotalSplit(a: seq<P.Seal>, b: seq<P.Seal>)
    ensures Total(a + b) == Total(a) + Total(b)
    decreases |b|
  {
    if b == [] {
      assert a + b == a;
    } else {
      assert (a + b)[..|a + b| - 1] == a + b[..|b| - 1];
      TotalSplit(a, b[..|b| - 1]);
    }
  }

  lemma TotalOne(s: P.Seal)
    ensures Total([s]) == Weight(s.msg)
  {
    assert Total([s][..0]) == 0;
  }

  /** What the frames an end has yet to take may still lead to; nothing once it has settled. */
  function Left(p: P.Pre, other: seq<P.Seal>, peer: nat): nat
    requires peer <= p.counters.recv <= peer + |other|
  {
    if p.outcome.result.Some? then 0 else Total(other[p.counters.recv - peer..])
  }

  function Pending(co: Context, x: Line): nat
    requires Stands(co, x)
  {
    EndCounts(x.o, x.fromO, x.j.seals, x.fromJ);
    EndCounts(x.j, x.fromJ, x.o.seals, x.fromO);
    Left(x.j, x.o.seals, x.fromO) + Left(x.o, x.j.seals, x.fromJ)
  }

  /** An answer is a later message than the one it answers. */
  lemma JoinerAnswer(co: Context, cj: Context, p: H.Pair, i: nat, nonce: seq<byte>)
    requires H.Matching(co, cj) && H.Stands(co, p) && |nonce| == NONCE_BYTES && i < |p.fromO|
    ensures var t := Handle(cj, p.j, Canonical(p.fromO[i]), Some(nonce));
            t.reply.out.Some? ==> Weight(t.reply.out.value) < Weight(p.fromO[i])
    ensures 0 < Weight(p.fromO[i])
  {
    hide Transcript, ContextOk, FindStep;
    if p.fromO[i].kind == Confirm {
      assert p.fromO[i] == H.TheConfirm(co, p);
      if p.j.phase.AwaitConfirm? {
        H.FindNone(p.j.steps[0], Canonical(p.fromO[i]));
      } else {
        H.FindSecond(p.j.steps[0], p.j.steps[1]);
      }
    } else {
      assert p.fromO[i] == H.TheInit(p);
      if !p.j.phase.Idle? {
        H.FindFirst(p.j.steps[0], p.j.steps[1..]);
        assert [p.j.steps[0]] + p.j.steps[1..] == p.j.steps;
      } else {
        NothingFound(Canonical(p.fromO[i]));
      }
    }
  }

  lemma NothingFound(p: Payload)
    ensures FindStep([], p) == None
  {}

  lemma OffererAnswer(co: Context, cj: Context, p: H.Pair, i: nat)
    requires H.Matching(co, cj) && H.Stands(co, p) && i < |p.fromJ|
    ensures var t := Handle(co, p.o, Canonical(p.fromJ[i]), None);
            t.reply.out.Some? ==> Weight(t.reply.out.value) < Weight(p.fromJ[i])
    ensures 0 < Weight(p.fromJ[i])
  {
    hide Transcript, ContextOk, FindStep;
    if p.fromJ[i].kind == Ready {
      assert p.fromJ[i] == H.TheReady(co, p);
      if p.o.phase.AwaitReady? {
        H.FindNone(p.o.steps[0], Canonical(p.fromJ[i]));
      } else {
        H.FindSecond(p.o.steps[0], p.o.steps[1]);
      }
    } else {
      assert p.fromJ[i] == H.TheChallenge(co, p);
      if !p.o.phase.AwaitChallenge? {
        H.FindFirst(p.o.steps[0], p.o.steps[1..]);
        assert [p.o.steps[0]] + p.o.steps[1..] == p.o.steps;
      } else {
        NothingFound(Canonical(p.fromJ[i]));
      }
    }
  }

  lemma LeftDrops(p: P.Pre, q: P.Pre, other: seq<P.Seal>, peer: nat)
    requires peer <= p.counters.recv < peer + |other| && p.outcome.result == None
    requires q.counters.recv == p.counters.recv + 1
    ensures Left(q, other, peer) <= Left(p, other, peer) - Weight(other[p.counters.recv - peer].msg)
  {
    var k := p.counters.recv - peer;
    assert other[k..] == [other[k]] + other[k + 1..];
    TotalSplit([other[k]], other[k + 1..]);
    TotalOne(other[k]);
  }

  lemma LeftGrows(p: P.Pre, other: seq<P.Seal>, more: seq<P.Seal>, peer: nat)
    requires peer <= p.counters.recv <= peer + |other|
    ensures Left(p, other + more, peer) <= Left(p, other, peer) + Total(more)
  {
    var k := p.counters.recv - peer;
    assert (other + more)[k..] == other[k..] + more;
    TotalSplit(other[k..], more);
  }

  /** Which seals a delivery adds. */
  lemma JoinerAdds(co: Context, cj: Context, x: Line, i: nat, nonce: seq<byte>)
    requires H.Matching(co, cj) && Stands(co, x) && i < |x.o.seals|
    requires InOrder(x, ToJoiner(i, nonce)) && x.j.outcome.result == None
    ensures var y := Play(co, cj, x, ToJoiner(i, nonce));
            exists more :: y.j.seals == x.j.seals + more && Total(more) < Weight(x.o.seals[i].msg)
  {
    hide H.Stands, Handle, H.Matching, Total;
    FrameOpens(x.j, x.fromJ, x.o.seals, x.fromO, i);
    var t := Handle(cj, x.j.auth, Canonical(x.o.seals[i].msg), Some(nonce));
    SessionAnswers(co, cj, x, i, nonce);
    JoinerAnswer(co, cj, PairOf(x), i, nonce);
    var y := Play(co, cj, x, ToJoiner(i, nonce));
    if t.reply.out.Some? {
      var s := P.Seal(x.j.counters.send, t.reply.out.value);
      TotalOne(s);
      assert y.j.seals == x.j.seals + [s];
    } else {
      TotalNone();
      assert y.j.seals == x.j.seals + [];
    }
  }

  lemma TotalNone()
    ensures Total([]) == 0
  {}

  lemma OffererAdds(co: Context, cj: Context, x: Line, i: nat)
    requires H.Matching(co, cj) && Stands(co, x) && i < |x.j.seals| && InOrder(x, ToOfferer(i))
    requires x.o.outcome.result == None
    ensures var y := Play(co, cj, x, ToOfferer(i));
            exists more :: y.o.seals == x.o.seals + more && Total(more) < Weight(x.j.seals[i].msg)
  {
    hide H.Stands, Handle, H.Matching, Total;
    FrameOpens(x.o, x.fromO, x.j.seals, x.fromJ, i);
    var t := Handle(co, x.o.auth, Canonical(x.j.seals[i].msg), None);
    OffererAnswers(co, cj, x, i);
    OffererAnswer(co, cj, PairOf(x), i);
    var y := Play(co, cj, x, ToOfferer(i));
    if t.reply.out.Some? {
      var s := P.Seal(x.o.counters.send, t.reply.out.value);
      TotalOne(s);
      assert y.o.seals == x.o.seals + [s];
    } else {
      TotalNone();
      assert y.o.seals == x.o.seals + [];
    }
  }

  /** Every new frame an unsettled end takes is progress. */
  lemma NewFrameIsProgress(co: Context, cj: Context, x: Line, m: Move)
    requires H.Matching(co, cj) && Stands(co, x) && InOrder(x, m)
    requires || (m.ToJoiner? && m.i == TakenByJ(x) < |x.o.seals| && x.j.outcome.result == None)
             || (m.ToOfferer? && m.i == TakenByO(x) < |x.j.seals| && x.o.outcome.result == None)
    ensures Stands(co, Play(co, cj, x, m)) && Pending(co, Play(co, cj, x, m)) < Pending(co, x)
  {
    PlayStands(co, cj, x, m);
    var y := Play(co, cj, x, m);
    EndCounts(x.o, x.fromO, x.j.seals, x.fromJ);
    EndCounts(x.j, x.fromJ, x.o.seals, x.fromO);
    if m.ToJoiner? {
      JoinerAdds(co, cj, x, m.i, m.nonce);
      ToJoinerIs(co, cj, x, m.i, m.nonce);
      hide Play, H.Stands, H.Matching, EndStands, Tracks, Total, Left;
      var more :| y.j.seals == x.j.seals + more && Total(more) < Weight(x.o.seals[m.i].msg);
      LeftDrops(x.j, y.j, x.o.seals, x.fromO);
      LeftGrows(x.o, x.j.seals, more, x.fromJ);
    } else {
      OffererAdds(co, cj, x, m.i);
      ToOffererIs(co, cj, x, m.i);
      hide Play, H.Stands, H.Matching, EndStands, Tracks, Total, Left;
      var more :| y.o.seals == x.o.seals + more && Total(more) < Weight(x.j.seals[m.i].msg);
      LeftDrops(x.o, y.o, x.j.seals, x.fromJ);
      LeftGrows(x.j, x.o.seals, more, x.fromO);
    }
  }

  // ---------------------------------------------------------------- results

  function TheKeys(co: Context, x: Line): Keys {
    Keys(co.secret, Transcript(co.transferId, co.fingerprint, x.o.auth.nonces.offerer, x.j.auth.nonces.joiner))
  }

  /** Both preambles have handed over the same keys: those of the credential and of a transcript
      with the nonces of both. */
  predicate Settled(co: Context, x: Line) {
    x.o.outcome.result == Some(TheKeys(co, x)) && x.j.outcome.result == Some(TheKeys(co, x))
  }

  /** Every frame has been taken by an end that still wants it. */
  predicate AllTaken(x: Line) {
    && (x.j.outcome.result == None ==> TakenByJ(x) == |x.o.seals|)
    && (x.o.outcome.result == None ==> TakenByO(x) == |x.j.seals|)
  }

  lemma SessionFacts(co: Context, x: Line)
    requires H.Stands(co, PairOf(x))
    ensures (x.o.auth.result.Some? <==> x.o.auth.phase.Done?) && (x.j.auth.result.Some? <==> x.j.auth.phase.Done?)
    ensures x.o.auth.result.Some? ==> x.o.auth.result == Some(TheKeys(co, x)) && x.j.auth.phase.Done?
    ensures x.j.auth.result.Some? ==> x.j.auth.result == Some(TheKeys(co, x))
    ensures !x.o.auth.phase.Idle? ==> x.o.seals != []
    ensures !x.j.auth.phase.Idle? ==> x.j.seals != []
    ensures x.o.auth.phase.AwaitReady? ==> exists i :: 0 <= i < |x.o.seals| && x.o.seals[i].msg.kind == Confirm
    ensures x.j.auth.phase.Done? ==> x.o.auth.phase.Done? || exists i :: 0 <= i < |x.j.seals| && x.j.seals[i].msg.kind == Ready
    ensures !x.o.auth.phase.Failed? && !x.o.auth.phase.AwaitConfirm? && !x.j.auth.phase.Failed?
  {
    hide Transcript;
    var p := PairOf(x);
    if x.o.auth.phase.AwaitReady? {
      var i :| 0 <= i < |p.fromO| && p.fromO[i] == H.TheConfirm(co, p);
      assert x.o.seals[i].msg.kind == Confirm;
    }
    if x.j.auth.phase.Done? {
      var i :| 0 <= i < |p.fromJ| && p.fromJ[i] == H.TheReady(co, p);
      assert x.j.seals[i].msg.kind == Ready;
    }
  }

  /** Over an ordered channel, with frames repeated at any time, neither preamble of an honest
      pair ever reports an error, and what it hands over are the shared keys. */
  lemma HonestPreamblesNeverFail(co: Context, cj: Context, a: nat, b: nat, ms: seq<Move>)
    requires H.Matching(co, cj) && AllInOrder(co, cj, a, b, ms)
    ensures var x := Played(co, cj, a, b, ms);
            && x.o.outcome.err == None && x.j.outcome.err == None
            && (x.o.outcome.result.Some? ==> x.o.outcome.result == Some(TheKeys(co, x)))
            && (x.j.outcome.result.Some? ==> x.j.outcome.result == Some(TheKeys(co, x)))
  {
    hide Played, AllInOrder, H.Stands, Transcript, H.Matching;
    LineStands(co, cj, a, b, ms);
    SessionFacts(co, Played(co, cj, a, b, ms));
  }

  /** Once the offerer has been started, a line on which all frames are in has settled, whatever
      the order of moves was. */
  lemma AllTakenIsSettled(co: Context, x: Line)
    requires Stands(co, x) && x.o.started && AllTaken(x)
    ensures Settled(co, x)
  {
    hide H.Stands, Transcript;
    SessionFacts(co, x);
  }

  lemma PlayedSnoc(co: Context, cj: Context, a: nat, b: nat, ms: seq<Move>, m: Move)
    ensures Played(co, cj, a, b, ms + [m]) == Play(co, cj, Played(co, cj, a, b, ms), m)
    ensures AllInOrder(co, cj, a, b, ms + [m]) <==> AllInOrder(co, cj, a, b, ms) && InOrder(Played(co, cj, a, b, ms), m)
  {
    assert (ms + [m])[..|ms|] == ms;
  }

  lemma StaysStarted(co: Context, cj: Context, x: Line, m: Move)
    requires x.o.started
    ensures Play(co, cj, x, m).o.started
  {
    hide Handle;
  }

  /** From wherever an honest pair of preambles has got to, handing over the frames still missing
      settles both on the same keys, after no more frames than are pending. */
  lemma {:induction false} PreamblesSettle(co: Context, cj: Context, a: nat, b: nat, ms: seq<Move>, nJ: seq<byte>)
    requires H.Matching(co, cj) && AllInOrder(co, cj, a, b, ms) && |nJ| == NONCE_BYTES
    requires Played(co, cj, a, b, ms).o.started
    requires Stands(co, Played(co, cj, a, b, ms))
    ensures exists more: seq<Move> ::
              && |more| <= Pending(co, Played(co, cj, a, b, ms))
              && AllInOrder(co, cj, a, b, ms + more) && Settled(co, Played(co, cj, a, b, ms + more))
    decreases Pending(co, Played(co, cj, a, b, ms))
  {
    hide Played, AllInOrder, Stands, Play, H.Matching, Settled, InOrder, Pending;
    var x := Played(co, cj, a, b, ms);
    if AllTaken(x) {
      AllTakenIsSettled(co, x);
      assert ms + [] == ms;
    } else {
      var m := NextMove(co, x, nJ);
      NewFrameIsProgress(co, cj, x, m);
      PlayedSnoc(co, cj, a, b, ms, m);
      StaysStarted(co, cj, x, m);
      PreamblesSettle(co, cj, a, b, ms + [m], nJ);
      var rest: seq<Move> :|
        && |rest| <= Pending(co, Played(co, cj, a, b, ms + [m]))
        && AllInOrder(co, cj, a, b, ms + [m] + rest) && Settled(co, Played(co, cj, a, b, ms + [m] + rest));
      assert ms + [m] + rest == ms + ([m] + rest);
    }
  }

  /** Some frame that is still missing. */
  function NextMove(co: Context, x: Line, nJ: seq<byte>): (m: Move)
    requires Stands(co, x) && !AllTaken(x) && |nJ| == NONCE_BYTES
    ensures InOrder(x, m)
    ensures || (m.ToJoiner? && m.i == TakenByJ(x) < |x.o.seals| && x.j.outcome.result == None)
            || (m.ToOfferer? && m.i == TakenByO(x) < |x.j.seals| && x.o.outcome.result == None)
  {
    EndCounts(x.o, x.fromO, x.j.seals, x.fromJ);
    EndCounts(x.j, x.fromJ, x.o.seals, x.fromO);
    if x.j.outcome.result == None && TakenByJ(x) < |x.o.seals| then ToJoiner(TakenByJ(x), nJ) else ToOfferer(TakenByO(x))
  }
}
