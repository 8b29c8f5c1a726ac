/** Two honest sessions of one attempt talking to each other. Whatever the network loses, repeats
    or reorders of what they really sent, neither ever fails, and from wherever they stand the
    handshake can still be finished. */
module Handshake {
  import opened Wire
  import opened ResumeAuth

  /** Both ends of one attempt, and every message either has sent. */
  datatype Pair = Pair(o: State, j: State, fromO: seq<Message>, fromJ: seq<Message>)

  /** A delivery hands over any message the peer ever sent, in its canonical spelling. The
      joiner's nonce source yields `nonce` should it be asked. */
  datatype Move = StartOfferer(nonce: seq<byte>) | StartJoiner | ToJoiner(i: nat, nonce: seq<byte>) | ToOfferer(i: nat)

  const Apart: Pair := Pair(Fresh, Fresh, [], [])

  /** An offerer and a joiner of the same transfer with the same credential. */
  predicate Matching(co: Context, cj: Context) {
    && ContextOk(co) && ContextOk(cj) && co.role == Offerer && cj.role == Joiner
    && cj.transferId == co.transferId && cj.fingerprint == co.fingerprint && cj.secret == co.secret
  }

  function Said(t: Turn): seq<Message> { if t.reply.out.Some? then [t.reply.out.value] else [] }

  function Play(co: Context, cj: Context, p: Pair, m: Move): Pair {
    match m
    case StartOfferer(nonce) =>
      var t := Take(co, p.o, StartCall(Some(nonce)));
      p.(o := t.state, fromO := p.fromO + Said(t))
    case StartJoiner => p.(j := Take(cj, p.j, StartCall(None)).state)
    case ToJoiner(i, nonce) =>
      if i >= |p.fromO| then p
      else
        var t := Take(cj, p.j, HandleCall(Canonical(p.fromO[i]), Some(nonce)));
        p.(j := t.state, fromJ := p.fromJ + Said(t))
    case ToOfferer(i) =>
      if i >= |p.fromJ| then p
      else
        var t := Take(co, p.o, HandleCall(Canonical(p.fromJ[i]), None));
        p.(o := t.state, fromO := p.fromO + Said(t))
  }

  function Played(co: Context, cj: Context, ms: seq<Move>): Pair {
    if ms == [] then Apart else Play(co, cj, Played(co, cj, ms[..|ms| - 1]), ms[|ms| - 1])
  }

  /** The nonce sources work. */
  predicate Sound(m: Move) {
    (m.StartOfferer? || m.ToJoiner?) ==> |m.nonce| == NONCE_BYTES
  }

  predicate AllSound(ms: seq<Move>) { forall i :: 0 <= i < |ms| ==> Sound(ms[i]) }

  // ---------------------------------------------------------------- where the two can stand

  function TheTranscript(co: Context, p: Pair): seq<byte> { TranscriptFor(co, p.o.nonces.offerer, p.j.nonces.joiner) }

  function TheInit(p: Pair): Message { InitMessage(p.o.nonces.offerer) }

  function TheChallenge(co: Context, p: Pair): Message {
    ChallengeMessage(p.j.nonces.joiner, Mac(co.secret, Joiner, TAG_JOINER, TheTranscript(co, p)))
  }

  function TheConfirm(co: Context, p: Pair): Message {
    ConfirmMessage(Mac(co.secret, Offerer, TAG_OFFERER, TheTranscript(co, p)))
  }

  function TheReady(co: Context, p: Pair): Message {
    ReadyMessage(Mac(co.secret, Joiner, TAG_READY, TheTranscript(co, p)))
  }

  function TheKeys(co: Context, p: Pair): Keys { Keys(co.secret, TheTranscript(co, p)) }

  predicate OffererStands(co: Context, p: Pair) {
    var n, t := p.o.nonces, TheTranscript(co, p);
    match p.o.phase
    case Idle => p.o == Fresh && p.fromO == []
    case AwaitChallenge => p.o.steps == [] && |n.offerer| == NONCE_BYTES && p.o.result == None && p.fromO != []
    case AwaitReady =>
      && |n.offerer| == NONCE_BYTES && n == Nonces(n.offerer, p.j.nonces.joiner, t) && p.o.result == None
      && p.o.steps == [Step(Canonical(TheChallenge(co, p)), Some(TheConfirm(co, p)))] && TheConfirm(co, p) in p.fromO
    case Done =>
      && |n.offerer| == NONCE_BYTES && n == Nonces(n.offerer, p.j.nonces.joiner, t) && p.o.result == Some(TheKeys(co, p))
      && p.o.steps == [Step(Canonical(TheChallenge(co, p)), Some(TheConfirm(co, p))), Step(Canonical(TheReady(co, p)), None)]
    case _ => false
  }

  predicate JoinerStands(co: Context, p: Pair) {
    var n, t := p.j.nonces, TheTranscript(co, p);
    var init := Step(Canonical(TheInit(p)), Some(TheChallenge(co, p)));
    match p.j.phase
    case Idle => p.j == Fresh && p.fromJ == []
    case AwaitConfirm =>
      && |n.joiner| == NONCE_BYTES && n == Nonces(p.o.nonces.offerer, n.joiner, t) && p.j.result == None
      && p.j.steps == [init] && p.fromJ != []
    case Done =>
      && |n.joiner| == NONCE_BYTES && n == Nonces(p.o.nonces.offerer, n.joiner, t) && p.j.result == Some(TheKeys(co, p))
      && p.j.steps == [init, Step(Canonical(TheConfirm(co, p)), Some(TheReady(co, p)))] && TheReady(co, p) in p.fromJ
    case _ => false
  }

  /** What has been said is one of the four messages, and no more than each end has got to. */
  predicate LogsStand(co: Context, p: Pair) {
    && (forall i :: 0 <= i < |p.fromO| ==>
          p.fromO[i] == TheInit(p) || (p.fromO[i] == TheConfirm(co, p) && (p.o.phase.AwaitReady? || p.o.phase.Done?)))
    && (forall i :: 0 <= i < |p.fromJ| ==>
          p.fromJ[i] == TheChallenge(co, p) || (p.fromJ[i] == TheReady(co, p) && p.j.phase.Done?))
  }

  predicate Stands(co: Context, p: Pair) {
    && OffererStands(co, p) && JoinerStands(co, p) && LogsStand(co, p)
    && (if p.o.phase.Idle? then p.j.phase.Idle? else p.fromO != [])
    && (p.o.phase.AwaitReady? || p.o.phase.Done? ==> !p.j.phase.Idle?)
    && (p.o.phase.Done? ==> p.j.phase.Done?)
    && (p.j.phase.Done? ==> p.o.phase.AwaitReady? || p.o.phase.Done?)
  }

  lemma PlayStands(co: Context, cj: Context, p: Pair, m: Move)
    requires Matching(co, cj) && Stands(co, p) && Sound(m)
    ensures Stands(co, Play(co, cj, p, m))
  {
    hide Transcript, ContextOk;
    match m {
      case StartOfferer(nonce) => StartStands(co, cj, p, nonce);
      case StartJoiner =>
      case ToJoiner(i, nonce) => if i < |p.fromO| { ToJoinerStands(co, cj, p, i, nonce); }
      case ToOfferer(i) => if i < |p.fromJ| { ToOffererStands(co, cj, p, i); }
    }
  }

  lemma StartStands(co: Context, cj: Context, p: Pair, nonce: seq<byte>)
    requires Matching(co, cj) && Stands(co, p) && |nonce| == NONCE_BYTES
    ensures Stands(co, Play(co, cj, p, StartOfferer(nonce)))
  {
    hide Transcript, ContextOk;
  }

  lemma FindFirst(a: Step, rest: seq<Step>)
    ensures FindStep([a] + rest, a.accepted) == Some(a)
  {}

  lemma FindSecond(a: Step, b: Step)
    requires a.accepted != b.accepted
    ensures FindStep([a, b], b.accepted) == Some(b)
  {
    assert [a, b][1..] == [b];
  }

  lemma FindNone(a: Step, p: Payload)
    requires a.accepted != p
    ensures FindStep([a], p) == None && FindStep([], p) == None
  {}

  /** A message accepted before is answered as before. */
  lemma KnownStays(c: Context, s: State, m: Message, nonce: Option<seq<byte>>, step: Step)
    requires !s.phase.Failed? && MessageOk(m) && FindStep(s.steps, Canonical(m)) == Some(step)
    ensures Handle(c, s, Canonical(m), nonce) == Turn(s, Reply(step.responded, s.result, None))
  {}

  lemma RepeatedToJoiner(co: Context, cj: Context, p: Pair, i: nat, nonce: seq<byte>, step: Step)
    requires Matching(co, cj) && Stands(co, p) && i < |p.fromO| && MessageOk(p.fromO[i])
    requires FindStep(p.j.steps, Canonical(p.fromO[i])) == Some(step) && step in p.j.steps
    ensures Stands(co, Play(co, cj, p, ToJoiner(i, nonce)))
  {
    hide Transcript, ContextOk, Handle, FindStep;
    KnownStays(cj, p.j, p.fromO[i], Some(nonce), step);
    var q := Play(co, cj, p, ToJoiner(i, nonce));
    assert q == p.(fromJ := p.fromJ + [step.responded.value]);
  }

  lemma FirstToJoiner(co: Context, cj: Context, p: Pair, i: nat, nonce: seq<byte>)
    requires Matching(co, cj) && Stands(co, p) && |nonce| == NONCE_BYTES && i < |p.fromO|
    requires p.j.phase.Idle?
    ensures Stands(co, Play(co, cj, p, ToJoiner(i, nonce)))
  {
    hide Transcript, ContextOk;
    var q := Play(co, cj, p, ToJoiner(i, nonce));
    assert p.fromO[i] == TheInit(p);
    assert q.fromJ == [TheChallenge(co, q)];
    assert q.j.steps == [Step(Canonical(TheInit(q)), Some(TheChallenge(co, q)))];
  }

  lemma ConfirmToJoiner(co: Context, cj: Context, p: Pair, i: nat, nonce: seq<byte>)
    requires Matching(co, cj) && Stands(co, p) && i < |p.fromO|
    requires p.j.phase.AwaitConfirm? && p.fromO[i] == TheConfirm(co, p)
    ensures Stands(co, Play(co, cj, p, ToJoiner(i, nonce)))
  {
    hide Transcript, ContextOk, FindStep;
    var q := Play(co, cj, p, ToJoiner(i, nonce));
    FindNone(p.j.steps[0], Canonical(TheConfirm(co, p)));
    assert q.fromJ == p.fromJ + [TheReady(co, p)];
    assert q.j.steps == [p.j.steps[0], Step(Canonical(TheConfirm(co, p)), Some(TheReady(co, p)))];
    assert q.fromJ[|p.fromJ|] == TheReady(co, q);
  }

  lemma ToJoinerStands(co: Context, cj: Context, p: Pair, i: nat, nonce: seq<byte>)
    requires Matching(co, cj) && Stands(co, p) && |nonce| == NONCE_BYTES && i < |p.fromO|
    ensures Stands(co, Play(co, cj, p, ToJoiner(i, nonce)))
  {
    hide Transcript, ContextOk, FindStep, Play;
    if p.j.phase.Idle? {
      FirstToJoiner(co, cj, p, i, nonce);
    } else if p.fromO[i] == TheInit(p) {
      FindFirst(p.j.steps[0], p.j.steps[1..]);
      assert [p.j.steps[0]] + p.j.steps[1..] == p.j.steps;
      RepeatedToJoiner(co, cj, p, i, nonce, p.j.steps[0]);
    } else if p.j.phase.AwaitConfirm? {
      ConfirmToJoiner(co, cj, p, i, nonce);
    } else {
      FindSecond(p.j.steps[0], p.j.steps[1]);
      RepeatedToJoiner(co, cj, p, i, nonce, p.j.steps[1]);
    }
  }

  lemma RepeatedToOfferer(co: Context, cj: Context, p: Pair, i: nat, step: Step)
    requires Matching(co, cj) && Stands(co, p) && i < |p.fromJ| && MessageOk(p.fromJ[i])
    requires FindStep(p.o.steps, Canonical(p.fromJ[i])) == Some(step) && step in p.o.steps
    ensures Stands(co, Play(co, cj, p, ToOfferer(i)))
  {
    hide Transcript, ContextOk, Handle, FindStep;
    KnownStays(co, p.o, p.fromJ[i], None, step);
    var q := Play(co, cj, p, ToOfferer(i));
    assert q == p.(fromO := p.fromO + if step.responded.Some? then [step.responded.value] else []);
  }

  lemma ChallengeToOfferer(co: Context, cj: Context, p: Pair, i: nat)
    requires Matching(co, cj) && Stands(co, p) && i < |p.fromJ|
    requires p.o.phase.AwaitChallenge? && p.fromJ[i] == TheChallenge(co, p)
    ensures Stands(co, Play(co, cj, p, ToOfferer(i)))
  {
    hide Transcript, ContextOk;
    var q := Play(co, cj, p, ToOfferer(i));
    assert q.fromO == p.fromO + [TheConfirm(co, q)];
    assert q.fromO[|p.fromO|] == TheConfirm(co, q);
    assert q.o.steps == [Step(Canonical(TheChallenge(co, q)), Some(TheConfirm(co, q)))];
  }

  lemma ReadyToOfferer(co: Context, cj: Context, p: Pair, i: nat)
    requires Matching(co, cj) && Stands(co, p) && i < |p.fromJ|
    requires p.o.phase.AwaitReady? && p.fromJ[i] == TheReady(co, p)
    ensures Stands(co, Play(co, cj, p, ToOfferer(i)))
  {
    hide Transcript, ContextOk, FindStep;
    var q := Play(co, cj, p, ToOfferer(i));
    FindNone(p.o.steps[0], Canonical(TheReady(co, p)));
    assert q.fromO == p.fromO;
    assert q.o.steps == [p.o.steps[0], Step(Canonical(TheReady(co, p)), None)];
  }

  lemma ToOffererStands(co: Context, cj: Context, p: Pair, i: nat)
    requires Matching(co, cj) && Stands(co, p) && i < |p.fromJ|
    ensures Stands(co, Play(co, cj, p, ToOfferer(i)))
  {
    hide Transcript, ContextOk, FindStep, Play;
    if p.o.phase.AwaitChallenge? {
      ChallengeToOfferer(co, cj, p, i);
    } else if p.fromJ[i] == TheChallenge(co, p) {
      FindFirst(p.o.steps[0], p.o.steps[1..]);
      assert [p.o.steps[0]] + p.o.steps[1..] == p.o.steps;
      RepeatedToOfferer(co, cj, p, i, p.o.steps[0]);
    } else if p.o.phase.AwaitReady? {
      ReadyToOfferer(co, cj, p, i);
    } else {
      FindSecond(p.o.steps[0], p.o.steps[1]);
      RepeatedToOfferer(co, cj, p, i, p.o.steps[1]);
    }
  }

  // ---------------------------------------------------------------- results

  lemma {:induction false} HonestPairStands(co: Context, cj: Context, ms: seq<Move>)
    requires Matching(co, cj) && AllSound(ms)
    ensures Stands(co, Played(co, cj, ms))
    decreases |ms|
  {
    hide Play, Stands, Matching;
    if ms == [] {
      ApartStands(co);
    } else {
      HonestPairStands(co, cj, ms[..|ms| - 1]);
      assert Sound(ms[|ms| - 1]);
      PlayStands(co, cj, Played(co, cj, ms[..|ms| - 1]), ms[|ms| - 1]);
    }
  }

  lemma ApartStands(co: Context)
    ensures Stands(co, Apart)
  {
    hide Transcript;
  }

  /** However their messages are lost, repeated and reordered, neither honest session ever fails,
      and what either of them derives are the keys of the shared credential and both nonces. */
  lemma HonestNeverFails(co: Context, cj: Context, ms: seq<Move>)
    requires Matching(co, cj) && AllSound(ms)
    ensures var p := Played(co, cj, ms);
            var keys := Keys(co.secret, Transcript(co.transferId, co.fingerprint, p.o.nonces.offerer, p.j.nonces.joiner));
            && !p.o.phase.Failed? && !p.j.phase.Failed?
            && (p.o.result.Some? ==> p.o.result == Some(keys)) && (p.j.result.Some? ==> p.j.result == Some(keys))
            && (p.o.result.Some? ==> p.j.result.Some?)
  {
    hide Transcript, Played, Matching;
    HonestPairStands(co, cj, ms);
  }

  /** Both ends are done, with the same keys: those of the credential and of the transcript that
      carries the transfer, its manifest and both nonces. */
  predicate Complete(co: Context, p: Pair) {
    && p.o.phase.Done? && p.j.phase.Done?
    && |p.o.nonces.offerer| == NONCE_BYTES && |p.j.nonces.joiner| == NONCE_BYTES
    && var t := Transcript(co.transferId, co.fingerprint, p.o.nonces.offerer, p.j.nonces.joiner);
    && p.o.result == Some(Keys(co.secret, t)) && p.j.result == Some(Keys(co.secret, t))
  }

  lemma PlayedSnoc(co: Context, cj: Context, ms: seq<Move>, m: Move)
    ensures Played(co, cj, ms + [m]) == Play(co, cj, Played(co, cj, ms), m)
  {
    assert (ms + [m])[..|ms|] == ms;
  }

  /** One more move of a run. */
  lemma Extend(co: Context, cj: Context, ms: seq<Move>, m: Move)
    requires Matching(co, cj) && AllSound(ms) && Sound(m)
    ensures AllSound(ms + [m]) && Stands(co, Played(co, cj, ms + [m]))
    ensures Played(co, cj, ms + [m]) == Play(co, cj, Played(co, cj, ms), m)
  {
    hide Played, Stands, Play, Matching;
    PlayedSnoc(co, cj, ms, m);
    HonestPairStands(co, cj, ms + [m]);
  }

  lemma StartedStands(co: Context, cj: Context, p: Pair, nonce: seq<byte>)
    requires Matching(co, cj) && Stands(co, p) && |nonce| == NONCE_BYTES
    ensures !Play(co, cj, p, StartOfferer(nonce)).o.phase.Idle?
  {
    hide Transcript, ContextOk;
  }

  lemma InitDelivered(co: Context, cj: Context, p: Pair, nonce: seq<byte>)
    requires Matching(co, cj) && Stands(co, p) && |nonce| == NONCE_BYTES && p.fromO != []
    ensures var q := Play(co, cj, p, ToJoiner(0, nonce)); !q.j.phase.Idle? && q.o == p.o
  {
    hide Transcript, ContextOk, FindStep, Take;
    var i := HandleCall(Canonical(p.fromO[0]), Some(nonce));
    ToJoinerStands(co, cj, p, 0, nonce);
    TakeMonotone(cj, p.j, i);
    if p.j.phase.Idle? { FreshAccepts(cj, p.fromO[0], nonce); }
  }

  lemma FreshAccepts(c: Context, m: Message, nonce: seq<byte>)
    requires c.role == Joiner && m.kind == Init && MessageOk(m) && |nonce| == NONCE_BYTES
    ensures !Take(c, Fresh, HandleCall(Canonical(m), Some(nonce))).state.phase.Idle?
  {
    hide Transcript;
  }

  lemma ChallengeDelivered(co: Context, cj: Context, p: Pair)
    requires Matching(co, cj) && Stands(co, p) && !p.j.phase.Idle? && p.fromJ != []
    ensures var q := Play(co, cj, p, ToOfferer(0)); (q.o.phase.AwaitReady? || q.o.phase.Done?) && q.j == p.j
  {
    hide Transcript, ContextOk, FindStep, Take;
    ToOffererStands(co, cj, p, 0);
    TakeMonotone(co, p.o, HandleCall(Canonical(p.fromJ[0]), None));
    if p.o.phase.AwaitChallenge? { AwaitingAccepts(co, p.o, p.fromJ[0]); }
  }

  lemma AwaitingAccepts(c: Context, s: State, m: Message)
    requires c.role == Offerer && s.phase.AwaitChallenge? && s.steps == [] && m.kind == Challenge && MessageOk(m)
    ensures !Take(c, s, HandleCall(Canonical(m), None)).state.phase.AwaitChallenge?
    ensures !Take(c, s, HandleCall(Canonical(m), None)).state.phase.Idle?
  {
    hide Transcript;
  }

  lemma ConfirmDelivered(co: Context, cj: Context, p: Pair, i: nat, nonce: seq<byte>)
    requires Matching(co, cj) && Stands(co, p) && |nonce| == NONCE_BYTES
    requires i < |p.fromO| && p.fromO[i].kind == Confirm
    ensures var q := Play(co, cj, p, ToJoiner(i, nonce)); q.j.phase.Done? && q.o == p.o
  {
    hide Transcript, ContextOk, FindStep;
    assert p.fromO[i] == TheConfirm(co, p);
    if p.j.phase.AwaitConfirm? {
      FindNone(p.j.steps[0], Canonical(TheConfirm(co, p)));
    } else {
      FindSecond(p.j.steps[0], p.j.steps[1]);
    }
  }

  lemma ReadyDelivered(co: Context, cj: Context, p: Pair, i: nat)
    requires Matching(co, cj) && Stands(co, p)
    requires i < |p.fromJ| && p.fromJ[i].kind == Ready
    ensures var q := Play(co, cj, p, ToOfferer(i)); q.o.phase.Done? && q.j == p.j
  {
    hide Transcript, ContextOk, FindStep;
    assert p.fromJ[i] == TheReady(co, p);
    if p.o.phase.AwaitReady? {
      FindNone(p.o.steps[0], Canonical(TheReady(co, p)));
    } else {
      FindSecond(p.o.steps[0], p.o.steps[1]);
    }
  }

  lemma DoneIsComplete(co: Context, p: Pair)
    requires Stands(co, p) && p.o.phase.Done?
    ensures Complete(co, p)
  {
    hide Transcript;
  }

  /** The second half: from a challenge accepted to both ends done. */
  lemma ConfirmAndReady(co: Context, cj: Context, ms: seq<Move>, nonce: seq<byte>)
    requires Matching(co, cj) && AllSound(ms) && |nonce| == NONCE_BYTES
    requires var p := Played(co, cj, ms); p.o.phase.AwaitReady? || p.o.phase.Done?
    ensures exists more: seq<Move> :: |more| <= 2 && AllSound(ms + more) && Complete(co, Played(co, cj, ms + more))
  {
    hide Played, Transcript, Complete, Play, Matching, FindStep;
    HonestPairStands(co, cj, ms);
    var p := Played(co, cj, ms);
    if p.o.phase.Done? {
      DoneIsComplete(co, p);
      assert ms + [] == ms;
    } else {
      var i :| 0 <= i < |p.fromO| && p.fromO[i] == TheConfirm(co, p);
      var a := ToJoiner(i, nonce);
      Extend(co, cj, ms, a);
      ConfirmDelivered(co, cj, p, i, nonce);
      var q := Played(co, cj, ms + [a]);
      var k :| 0 <= k < |q.fromJ| && q.fromJ[k] == TheReady(co, q);
      var b := ToOfferer(k);
      Extend(co, cj, ms + [a], b);
      ReadyDelivered(co, cj, q, k);
      DoneIsComplete(co, Played(co, cj, ms + [a] + [b]));
      assert ms + [a] + [b] == ms + [a, b];
    }
  }

  /** The first half: a start, and the first message of each side. */
  lemma StartAndChallenge(co: Context, cj: Context, ms: seq<Move>, nO: seq<byte>, nJ: seq<byte>)
    requires Matching(co, cj) && AllSound(ms) && |nO| == NONCE_BYTES && |nJ| == NONCE_BYTES
    ensures var done := ms + [StartOfferer(nO)] + [ToJoiner(0, nJ)] + [ToOfferer(0)];
            var p := Played(co, cj, done);
            AllSound(done) && (p.o.phase.AwaitReady? || p.o.phase.Done?)
  {
    hide Played, Stands, Play, Matching;
    HonestPairStands(co, cj, ms);
    var m1 := ms + [StartOfferer(nO)];
    var m2 := m1 + [ToJoiner(0, nJ)];
    Extend(co, cj, ms, StartOfferer(nO));
    StartedStands(co, cj, Played(co, cj, ms), nO);
    Extend(co, cj, m1, ToJoiner(0, nJ));
    Offered(co, Played(co, cj, m1));
    InitDelivered(co, cj, Played(co, cj, m1), nJ);
    Extend(co, cj, m2, ToOfferer(0));
    Challenged(co, Played(co, cj, m2));
    ChallengeDelivered(co, cj, Played(co, cj, m2));
  }

  /** From wherever an honest pair has got to, with whatever has been lost, at most five more
      moves finish the handshake on both sides with equal keys: start, and hand over one message
      of each kind. */
  lemma HandshakeFinishes(co: Context, cj: Context, ms: seq<Move>, nO: seq<byte>, nJ: seq<byte>)
    requires Matching(co, cj) && AllSound(ms) && |nO| == NONCE_BYTES && |nJ| == NONCE_BYTES
    ensures exists more: seq<Move> :: |more| <= 5 && AllSound(ms + more) && Complete(co, Played(co, cj, ms + more))
  {
    hide Played, Complete, Matching, AllSound;
    var a, b, c := StartOfferer(nO), ToJoiner(0, nJ), ToOfferer(0);
    var m3 := ms + [a] + [b] + [c];
    StartAndChallenge(co, cj, ms, nO, nJ);
    ConfirmAndReady(co, cj, m3, nJ);
    var rest: seq<Move> :| |rest| <= 2 && AllSound(m3 + rest) && Complete(co, Played(co, cj, m3 + rest));
    JoinMoves(ms, a, b, c, rest);
  }

  lemma JoinMoves(ms: seq<Move>, a: Move, b: Move, c: Move, rest: seq<Move>)
    ensures ms + [a] + [b] + [c] + rest == ms + ([a, b, c] + rest)
  {}

  lemma Offered(co: Context, p: Pair)
    requires Stands(co, p) && !p.o.phase.Idle?
    ensures p.fromO != []
  {
    hide Transcript;
  }

  lemma Challenged(co: Context, p: Pair)
    requires Stands(co, p) && !p.j.phase.Idle?
    ensures p.fromJ != []
  {
    hide Transcript;
  }
}
