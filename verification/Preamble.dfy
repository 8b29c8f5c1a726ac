/** The resume preamble: the handshake carried in sealed frames of the session channel, before
    the transfer engine starts under the resumed keys. */
module Preamble {
  import opened Wire
  import opened ResumeAuth
  import opened ResumeSession

  /** A frame of the session channel: authentic, with its type and counter, or not. `claimed`
      is the counter a forged frame of sufficient length displays. */
  datatype SessionFrame = Authentic(counter: nat, resumeAuth: bool, payload: Payload) | Counterfeit(claimed: Option<nat>)

  datatype Trouble = Rejected | WrongType | AuthError(e: Error) | SendFailed

  /** One frame this side has sealed under the session key. */
  datatype Seal = Seal(counter: nat, msg: Message)

  datatype Counters = Counters(send: nat, recv: nat)

  /** `closes` counts how often the done channel has been closed. */
  datatype Outcome = Outcome(result: Option<Keys>, err: Option<Trouble>, closes: nat)

  datatype Pre = Pre(
    auth: State, counters: Counters, started: bool, lastAccepted: Option<Payload>, outcome: Outcome, seals: seq<Seal>)

  function Begin(send: nat, recv: nat): Pre {
    Pre(Fresh, Counters(send, recv), false, None, Outcome(None, None, 0), [])
  }

  function FailWith(p: Pre, e: Trouble): Pre {
    var o := p.outcome;
    p.(outcome := Outcome(o.result, if o.err == None then Some(e) else o.err,
                          if o.result == None then o.closes + 1 else o.closes))
  }

  /** Seals at the current counter; the counter advances only when the frame was sent. */
  function Send(p: Pre, m: Message, sendOk: bool): Pre {
    var p1 := p.(seals := p.seals + [Seal(p.counters.send, m)]);
    if sendOk then p1.(counters := p.counters.(send := p.counters.send + 1)) else p1
  }

  /** A failed send is returned to the caller and settles nothing. */
  function StartStep(c: Context, p: Pre, nonce: Option<seq<byte>>, sendOk: bool): Pre {
    if p.started then p
    else
      var p1 := p.(started := true);
      if c.role == Joiner then p1
      else
        var t := Start(c, p.auth, nonce);
        if t.reply.error.Some? then FailWith(p1.(auth := t.state), AuthError(t.reply.error.value))
        else if t.reply.out.Some? then Send(p1.(auth := t.state), t.reply.out.value, sendOk)
        else p1.(auth := t.state)
  }

  datatype Opened = Opened(payload: Payload, recv: nat) | Refused(e: Trouble)

  function Open(p: Pre, f: SessionFrame): Opened {
    match f
    case Counterfeit(_) => Refused(Rejected)
    case Authentic(counter, resumeAuth, payload) =>
      if counter < p.counters.recv then
        if counter + 1 == p.counters.recv && p.lastAccepted == Some(payload) && resumeAuth
        then Opened(payload, p.counters.recv) else Refused(Rejected)
      else if !resumeAuth then Refused(WrongType)
      else Opened(payload, counter + 1)
  }

  /** Feeds an opened payload to the session, sends its answer, and settles on a result. */
  function Answer(c: Context, p: Pre, payload: Payload, nonce: Option<seq<byte>>, sendOk: bool): Pre {
    var t := Handle(c, p.auth, payload, nonce);
    var p1 := p.(auth := t.state);
    if t.reply.error.Some? then FailWith(p1, AuthError(t.reply.error.value))
    else
      var p2 := p1.(lastAccepted := Some(payload));
      var p3 := if t.reply.out.Some? then Send(p2, t.reply.out.value, sendOk) else p2;
      if t.reply.out.Some? && !sendOk then FailWith(p3, SendFailed)
      else if t.reply.result.Some? then p3.(outcome := Outcome(t.reply.result, p3.outcome.err, p3.outcome.closes + 1))
      else p3
  }

  function HandleStep(c: Context, p: Pre, f: SessionFrame, nonce: Option<seq<byte>>, sendOk: bool): Pre {
    if p.outcome.err.Some? || p.outcome.result.Some? then p
    else match Open(p, f)
      case Refused(e) => FailWith(p, e)
      case Opened(payload, recv) => Answer(c, p.(counters := p.counters.(recv := recv)), payload, nonce, sendOk)
  }

  datatype Call =
    | StartIt(nonce: Option<seq<byte>>, sendOk: bool)
    | HandleIt(frame: SessionFrame, nonce: Option<seq<byte>>, sendOk: bool)

  function Step(c: Context, p: Pre, k: Call): Pre {
    match k
    case StartIt(nonce, sendOk) => StartStep(c, p, nonce, sendOk)
    case HandleIt(frame, nonce, sendOk) => HandleStep(c, p, frame, nonce, sendOk)
  }

  function Run(c: Context, send: nat, recv: nat, ks: seq<Call>): Pre {
    if ks == [] then Begin(send, recv) else Step(c, Run(c, send, recv, ks[..|ks| - 1]), ks[|ks| - 1])
  }

  // ---------------------------------------------------------------- the driver's order

  /** The offerer is started, and its first send does not fail, before any frame is handed to
      it. (Without a nonce there is nothing to send.) */
  predicate InOrder(c: Context, ks: seq<Call>) {
    c.role == Offerer && ks != [] ==> ks[0].StartIt? && (ks[0].sendOk || !NonceOk(ks[0].nonce))
  }

  /** Every counter up to the next one was used for exactly one seal; a frame that could not be
      sent is the last one. */
  predicate Sequenced(send: nat, p: Pre) {
    && (forall i :: 0 <= i < |p.seals| ==> p.seals[i].counter == send + i)
    && (p.counters.send == send + |p.seals| || (p.outcome.err.Some? && p.counters.send + 1 == send + |p.seals|))
    && p.outcome.closes == (if p.outcome.result.Some? || p.outcome.err.Some? then 1 else 0)
    && (p.outcome.result.Some? ==> p.outcome.err == None)
  }

  lemma HandleSequenced(c: Context, send: nat, p: Pre, f: SessionFrame, nonce: Option<seq<byte>>, sendOk: bool)
    requires Sequenced(send, p)
    ensures Sequenced(send, HandleStep(c, p, f, nonce, sendOk))
  {
    hide Answer, Sequenced;
    if p.outcome.err == None && p.outcome.result == None {
      match Open(p, f) {
        case Refused(e) => FailSequenced(send, p, e);
        case Opened(payload, recv) =>
          AnswerSequenced(c, send, p.(counters := p.counters.(recv := recv)), payload, nonce, sendOk, p);
      }
    }
  }

  lemma FailSequenced(send: nat, p: Pre, e: Trouble)
    requires Sequenced(send, p) && p.outcome.err == None && p.outcome.result == None
    ensures Sequenced(send, FailWith(p, e))
  {}

  lemma AnswerSequenced(c: Context, send: nat, p: Pre, payload: Payload, nonce: Option<seq<byte>>,
      sendOk: bool, was: Pre)
    requires Sequenced(send, was) && was.outcome.err == None && was.outcome.result == None
    requires p.seals == was.seals && p.outcome == was.outcome && p.counters.send == was.counters.send
    ensures Sequenced(send, Answer(c, p, payload, nonce, sendOk))
  {
    hide Handle;
  }

  lemma FirstStart(c: Context, send: nat, recv: nat, nonce: Option<seq<byte>>, sendOk: bool)
    requires c.role == Joiner || sendOk || !NonceOk(nonce)
    ensures Sequenced(send, StartStep(c, Begin(send, recv), nonce, sendOk))
  {}

  lemma SequencedBegin(send: nat, recv: nat)
    ensures Sequenced(send, Begin(send, recv))
  {}

  lemma JoinerStart(c: Context, send: nat, p: Pre, nonce: Option<seq<byte>>, sendOk: bool)
    requires Sequenced(send, p) && (c.role == Joiner || p.started)
    ensures Sequenced(send, StartStep(c, p, nonce, sendOk))
  {}

  lemma {:induction false} StaysStarted(c: Context, send: nat, recv: nat, ks: seq<Call>)
    requires ks != [] && ks[0].StartIt?
    ensures Run(c, send, recv, ks).started
    decreases |ks|
  {
    hide Start, Handle;
    if |ks| > 1 {
      StaysStarted(c, send, recv, ks[..|ks| - 1]);
    } else {
      assert ks[..0] == [];
    }
  }

  /** In the driver's order no counter of the session key is ever used for two frames, and the
      done channel is closed exactly when the preamble settles. */
  lemma {:induction false} NeverSealedTwice(c: Context, send: nat, recv: nat, ks: seq<Call>)
    requires InOrder(c, ks)
    ensures Sequenced(send, Run(c, send, recv, ks))
    decreases |ks|
  {
    hide Sequenced, StartStep, HandleStep;
    if ks == [] {
      SequencedBegin(send, recv);
    } else {
      var init, k := ks[..|ks| - 1], ks[|ks| - 1];
      assert init != [] ==> init[0] == ks[0];
      NeverSealedTwice(c, send, recv, init);
      var p := Run(c, send, recv, init);
      match k {
        case HandleIt(frame, nonce, sendOk) => HandleSequenced(c, send, p, frame, nonce, sendOk);
        case StartIt(nonce, sendOk) =>
          if init == [] {
            FirstStart(c, send, recv, nonce, sendOk);
          } else {
            if c.role == Offerer { StaysStarted(c, send, recv, init); }
            JoinerStart(c, send, p, nonce, sendOk);
          }
      }
    }
  }

  lemma TwoCalls(c: Context, send: nat, recv: nat, a: Call, b: Call)
    ensures Run(c, send, recv, [a] + [b]) == Step(c, Step(c, Begin(send, recv), a), b)
  {
    var ks := [a] + [b];
    assert ks[..1] == [a] && [a][..0] == [];
    assert Run(c, send, recv, [a]) == Step(c, Begin(send, recv), a);
  }

  /** If the offerer's first send fails and a frame is handled all the same, the counter of the
      lost resume_init is used again for the confirm. */
  lemma FailedStartReusesCounter(c: Context, send: nat, recv: nat, nonce: seq<byte>, joiner: seq<byte>)
    requires c.role == Offerer && |nonce| == NONCE_BYTES && |joiner| == NONCE_BYTES
    ensures var t := TranscriptFor(c, nonce, joiner);
            var challenge := Canonical(ChallengeMessage(joiner, Mac(c.secret, Joiner, TAG_JOINER, t)));
            var p := Run(c, send, recv,
                         [StartIt(Some(nonce), false)] + [HandleIt(Authentic(recv, true, challenge), None, true)]);
            && |p.seals| == 2 && p.seals[0].counter == p.seals[1].counter && p.seals[0].msg != p.seals[1].msg
  {
    hide Transcript;
    var t := TranscriptFor(c, nonce, joiner);
    var challenge := Canonical(ChallengeMessage(joiner, Mac(c.secret, Joiner, TAG_JOINER, t)));
    TwoCalls(c, send, recv, StartIt(Some(nonce), false), HandleIt(Authentic(recv, true, challenge), None, true));
  }

  /** Any frame handed to an offerer that was not started fails the preamble, and starting it
      afterwards closes the done channel a second time. */
  lemma LateStartClosesTwice(c: Context, send: nat, recv: nat, k: Call)
    requires c.role == Offerer && k.HandleIt?
    ensures Run(c, send, recv, [k] + [StartIt(None, true)]).outcome.closes == 2
  {
    hide Transcript;
    TwoCalls(c, send, recv, k, StartIt(None, true));
    var p := Step(c, Begin(send, recv), k);
    assert p.outcome.closes == 1 && p.outcome.result == None && !p.started;
  }

  /** A first call is safe under every continuation exactly when it keeps the driver's order. */
  lemma OrderIsNeeded(c: Context, send: nat, recv: nat, k: Call)
    ensures InOrder(c, [k]) <==> forall more :: Sequenced(send, Run(c, send, recv, [k] + more))
  {
    hide Run, Sequenced;
    if InOrder(c, [k]) {
      forall more ensures Sequenced(send, Run(c, send, recv, [k] + more)) { NeverSealedTwice(c, send, recv, [k] + more); }
    } else if k.StartIt? {
      var joiner: seq<byte> := seq(NONCE_BYTES, _ => 0);
      FailedStartReusesCounter(c, send, recv, k.nonce.value, joiner);
      var t := TranscriptFor(c, k.nonce.value, joiner);
      var challenge := Canonical(ChallengeMessage(joiner, Mac(c.secret, Joiner, TAG_JOINER, t)));
      var more := [HandleIt(Authentic(recv, true, challenge), None, true)];
      assert k == StartIt(Some(k.nonce.value), false);
      NotSequenced(send, Run(c, send, recv, [k] + more));
    } else {
      LateStartClosesTwice(c, send, recv, k);
      NotSequenced(send, Run(c, send, recv, [k] + [StartIt(None, true)]));
    }
  }

  lemma NotSequenced(send: nat, p: Pre)
    requires p.outcome.closes == 2 || (|p.seals| == 2 && p.seals[0].counter == p.seals[1].counter)
    ensures !Sequenced(send, p)
  {}

  // ---------------------------------------------------------------- results and inbound counters

  /** A handler that reports keys reports those of the session. */
  lemma ReplyIsResult(c: Context, s: State, p: Payload, nonce: Option<seq<byte>>)
    ensures var t := Handle(c, s, p, nonce); t.reply.result.Some? ==> t.reply.result == t.state.result
  {
    hide Transcript;
  }

  /** The keys a preamble hands to the engine are those its session derived. */
  lemma {:induction false} ResultIsSessions(c: Context, send: nat, recv: nat, ks: seq<Call>)
    ensures var p := Run(c, send, recv, ks); p.outcome.result.Some? ==> p.outcome.result == p.auth.result
    decreases |ks|
  {
    hide Handle, Start;
    if ks != [] {
      var init, k := ks[..|ks| - 1], ks[|ks| - 1];
      ResultIsSessions(c, send, recv, init);
      var p := Run(c, send, recv, init);
      if k.HandleIt? && Open(p, k.frame).Opened? { ReplyIsResult(c, p.auth, Open(p, k.frame).payload, k.nonce); }
      if k.StartIt? { StartNeedsFresh(c, p, k.nonce); }
    }
  }

  /** Starting never touches a session's result. */
  lemma StartNeedsFresh(c: Context, p: Pre, nonce: Option<seq<byte>>)
    ensures Start(c, p.auth, nonce).state.result == p.auth.result
  {}

  /** The counters of the frames a run accepted as new, in order. */
  function Taken(c: Context, send: nat, recv: nat, ks: seq<Call>): seq<nat> {
    if ks == [] then []
    else
      var init, k := ks[..|ks| - 1], ks[|ks| - 1];
      var p, taken := Run(c, send, recv, init), Taken(c, send, recv, init);
      if k.HandleIt? && p.outcome.err == None && p.outcome.result == None && Open(p, k.frame).Opened?
         && k.frame.counter >= p.counters.recv
      then taken + [k.frame.counter] else taken
  }

  lemma HandleMovesOn(c: Context, p: Pre, f: SessionFrame, nonce: Option<seq<byte>>, sendOk: bool)
    ensures var q := HandleStep(c, p, f, nonce, sendOk);
            && p.counters.recv <= q.counters.recv
            && (p.outcome.err == None && p.outcome.result == None && Open(p, f).Opened? && f.counter >= p.counters.recv ==>
                  q.counters.recv == f.counter + 1)
  {
    hide Handle;
  }

  lemma StartStays(c: Context, p: Pre, nonce: Option<seq<byte>>, sendOk: bool)
    ensures StartStep(c, p, nonce, sendOk).counters.recv == p.counters.recv
  {
    hide Start;
  }

  /** In every run each authentic frame is taken as new at most once: the counters taken are
      strictly increasing, whatever the network replays or reorders. */
  lemma {:induction false} TakenOnce(c: Context, send: nat, recv: nat, ks: seq<Call>)
    ensures var taken := Taken(c, send, recv, ks);
            && (forall i, j :: 0 <= i < j < |taken| ==> taken[i] < taken[j])
            && (forall i :: 0 <= i < |taken| ==> recv <= taken[i] < Run(c, send, recv, ks).counters.recv)
            && recv <= Run(c, send, recv, ks).counters.recv
    decreases |ks|
  {
    hide HandleStep, StartStep;
    if ks != [] {
      var init, k := ks[..|ks| - 1], ks[|ks| - 1];
      TakenOnce(c, send, recv, init);
      var p := Run(c, send, recv, init);
      match k {
        case HandleIt(f, nonce, sendOk) => HandleMovesOn(c, p, f, nonce, sendOk);
        case StartIt(nonce, sendOk) =>
          StartStays(c, p, nonce, sendOk);
          assert Run(c, send, recv, ks).counters.recv == p.counters.recv;
          assert Taken(c, send, recv, ks) == Taken(c, send, recv, init);
      }
    }
  }

  // ---------------------------------------------------------------- the preamble object

  class ResumePreamble {
    const sess: Session
    var sendCounter: nat
    var recvCounter: nat
    var started: bool
    var lastAccepted: Option<Payload>
    var result: Option<Keys>
    var err: Option<Trouble>
    var closes: nat
    ghost var seals: seq<Seal>

    ghost function View(): Pre
      reads this, sess
    {
      Pre(sess.View(), Counters(sendCounter, recvCounter), started, lastAccepted, Outcome(result, err, closes), seals)
    }

    constructor (c: Context, send: nat, recv: nat)
      requires ContextOk(c)
      ensures fresh(sess) && sess.ctx == c && View() == Begin(send, recv)
    {
      sess := new Session(c);
      sendCounter, recvCounter, started, lastAccepted := send, recv, false, None;
      result, err, closes, seals := None, None, 0, [];
    }

    method Settle(e: Trouble)
      modifies this
      ensures View() == FailWith(old(View()), e)
    {
      if err == None { err := Some(e); }
      if result == None { closes := closes + 1; }
    }

    method Transmit(m: Message, sendOk: bool) returns (ok: bool)
      modifies this
      ensures View() == Send(old(View()), m, sendOk) && ok == sendOk
    {
      seals := seals + [Seal(sendCounter, m)];
      if !sendOk { return false; }
      sendCounter := sendCounter + 1;
      ok := true;
    }

    method StartHandshake(nonce: Option<seq<byte>>, sendOk: bool) returns (ok: bool)
      modifies this, sess
      ensures View() == StartStep(sess.ctx, old(View()), nonce, sendOk)
    {
      if started { return false; }
      started := true;
      if sess.ctx.role == Joiner { return true; }
      var reply := sess.Start(nonce);
      if reply.error.Some? {
        Settle(AuthError(reply.error.value));
        return false;
      }
      ok := true;
      if reply.out.Some? { ok := Transmit(reply.out.value, sendOk); }
    }

    method OpenFrame(f: SessionFrame) returns (frame: Opened)
      modifies this`recvCounter
      ensures frame == Open(old(View()), f)
      ensures View() == if frame.Opened? then old(View()).(counters := Counters(sendCounter, frame.recv)) else old(View())
    {
      match f {
        case Counterfeit(_) => return Refused(Rejected);
        case Authentic(counter, resumeAuth, body) =>
          if counter < recvCounter {
            if counter + 1 != recvCounter || lastAccepted != Some(body) || !resumeAuth { return Refused(Rejected); }
          } else {
            if !resumeAuth { return Refused(WrongType); }
            recvCounter := counter + 1;
          }
          frame := Opened(body, recvCounter);
      }
    }

    method AnswerPayload(payload: Payload, nonce: Option<seq<byte>>, sendOk: bool)
      modifies this, sess
      ensures View() == Answer(sess.ctx, old(View()), payload, nonce, sendOk)
    {
      var reply := sess.Handle(payload, nonce);
      if reply.error.Some? { Settle(AuthError(reply.error.value)); return; }
      lastAccepted := Some(payload);
      if reply.out.Some? {
        var ok := Transmit(reply.out.value, sendOk);
        if !ok { Settle(SendFailed); return; }
      }
      if reply.result.Some? {
        result := reply.result;
        closes := closes + 1;
      }
    }

    method HandleFrame(f: SessionFrame, nonce: Option<seq<byte>>, sendOk: bool)
      modifies this, sess
      ensures View() == HandleStep(sess.ctx, old(View()), f, nonce, sendOk)
    {
      if err.Some? || result.Some? { return; }
      var frame := OpenFrame(f);
      match frame {
        case Refused(e) => Settle(e);
        case Opened(payload, _) => AnswerPayload(payload, nonce, sendOk);
      }
    }
  }
}
