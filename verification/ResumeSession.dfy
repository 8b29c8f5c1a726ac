/** The resume-auth session object, updated in place by each call. */
module ResumeSession {
  import opened Wire
  import opened ResumeAuth

  class Session {
    const ctx: Context
    var phase: Phase
    var offererNonce: seq<byte>
    var joinerNonce: seq<byte>
    var transcript: seq<byte>
    var result: Option<Keys>
    var steps: seq<Step>
    ghost var draws: nat

    ghost function View(): State
      reads this
    {
      State(phase, Nonces(offererNonce, joinerNonce, transcript), steps, result, draws)
    }

    constructor (c: Context)
      requires ContextOk(c)
      ensures ctx == c && View() == Fresh
    {
      ctx := c;
      phase, offererNonce, joinerNonce, transcript := Idle, [], [], [];
      result, steps, draws := None, [], 0;
    }

    method Fail(e: Error) returns (reply: Reply)
      modifies this`phase
      ensures Turn(View(), reply) == ResumeAuth.Fail(old(View()), e)
    {
      phase := Phase.Failed(e);
      reply := Reply(None, None, Some(e));
    }

    /** Begins the handshake; only the offerer has something to send. */
    method Start(nonce: Option<seq<byte>>) returns (reply: Reply)
      modifies this
      ensures Turn(View(), reply) == ResumeAuth.Start(ctx, old(View()), nonce)
    {
      if phase != Idle { return Reply(None, None, Some(WrongState)); }
      if ctx.role == Joiner { return Reply(None, None, Some(WrongState)); }
      if !NonceOk(nonce) {
        reply := Fail(NoNonce);
        return;
      }
      draws := draws + 1;
      offererNonce := nonce.value;
      phase := AwaitChallenge;
      reply := Reply(Some(InitMessage(nonce.value)), None, None);
    }

    /** Looks an accepted message up by its exact bytes. */
    method Find(p: Payload) returns (found: Option<Step>)
      ensures found == FindStep(steps, p)
    {
      var i := 0;
      while i < |steps|
        invariant 0 <= i <= |steps|
        invariant FindStep(steps, p) == FindStep(steps[i..], p)
      {
        if steps[i].accepted == p { return Some(steps[i]); }
        i := i + 1;
      }
      found := None;
    }

    method AcceptChallenge(m: Message, p: Payload) returns (reply: Reply)
      requires MessageOk(m) && m.kind == Challenge
      modifies this
      ensures Turn(View(), reply) == ResumeAuth.AcceptChallenge(ctx, old(View()), m, p)
    {
      joinerNonce := m.nonce.value;
      transcript := TranscriptFor(ctx, offererNonce, joinerNonce);
      if m.proof.value != Mac(ctx.secret, Joiner, TAG_JOINER, transcript) {
        reply := Fail(BadProof);
        return;
      }
      var confirm := ConfirmMessage(Mac(ctx.secret, Offerer, TAG_OFFERER, transcript));
      steps := steps + [Step(p, Some(confirm))];
      phase := AwaitReady;
      reply := Reply(Some(confirm), None, None);
    }

    method HandleOfferer(m: Message, p: Payload) returns (reply: Reply)
      requires MessageOk(m)
      modifies this
      ensures Turn(View(), reply) == ResumeAuth.HandleOfferer(ctx, old(View()), m, p)
    {
      match m.kind {
        case Challenge =>
          if phase != AwaitChallenge { reply := Fail(Conflict); } else { reply := AcceptChallenge(m, p); }
        case Ready =>
          if phase != AwaitReady {
            reply := Fail(Unexpected);
          } else if m.proof.value != Mac(ctx.secret, Joiner, TAG_READY, transcript) {
            reply := Fail(BadProof);
          } else {
            steps := steps + [Step(p, None)];
            phase := Phase.Done;
            result := Some(Keys(ctx.secret, transcript));
            reply := Reply(None, result, None);
          }
        case Init => reply := Fail(Unexpected);
        case Confirm => reply := Fail(Unexpected);
      }
    }

    method AcceptInit(m: Message, p: Payload, nonce: Option<seq<byte>>) returns (reply: Reply)
      requires MessageOk(m) && m.kind == Init
      modifies this
      ensures Turn(View(), reply) == ResumeAuth.AcceptInit(ctx, old(View()), m, p, nonce)
    {
      offererNonce := m.nonce.value;
      if !NonceOk(nonce) {
        reply := Fail(NoNonce);
        return;
      }
      draws := draws + 1;
      joinerNonce := nonce.value;
      transcript := TranscriptFor(ctx, offererNonce, joinerNonce);
      var challenge := ChallengeMessage(joinerNonce, Mac(ctx.secret, Joiner, TAG_JOINER, transcript));
      steps := steps + [Step(p, Some(challenge))];
      phase := AwaitConfirm;
      reply := Reply(Some(challenge), None, None);
    }

    method HandleJoiner(m: Message, p: Payload, nonce: Option<seq<byte>>) returns (reply: Reply)
      requires MessageOk(m)
      modifies this
      ensures Turn(View(), reply) == ResumeAuth.HandleJoiner(ctx, old(View()), m, p, nonce)
    {
      match m.kind {
        case Init =>
          if phase != Idle { reply := Fail(Conflict); } else { reply := AcceptInit(m, p, nonce); }
        case Confirm =>
          if phase != AwaitConfirm {
            reply := Fail(Conflict);
          } else if m.proof.value != Mac(ctx.secret, Offerer, TAG_OFFERER, transcript) {
            reply := Fail(BadProof);
          } else {
            var ready := ReadyMessage(Mac(ctx.secret, Joiner, TAG_READY, transcript));
            steps := steps + [Step(p, Some(ready))];
            phase := Phase.Done;
            result := Some(Keys(ctx.secret, transcript));
            reply := Reply(Some(ready), result, None);
          }
        case Challenge => reply := Fail(Unexpected);
        case Ready => reply := Fail(Unexpected);
      }
    }

    /** Feeds one inbound message: exact duplicates first, then the state machine. */
    method Handle(p: Payload, nonce: Option<seq<byte>>) returns (reply: Reply)
      modifies this
      ensures Turn(View(), reply) == ResumeAuth.Handle(ctx, old(View()), p, nonce)
    {
      if phase.Failed? { return Reply(None, None, Some(phase.error)); }
      var m := Decode(p);
      if m == None {
        reply := Fail(Malformed);
        return;
      }
      var known := Find(p);
      if known.Some? { return Reply(known.value.responded, result, None); }
      if ctx.role == Offerer {
        reply := HandleOfferer(m.value, p);
      } else {
        reply := HandleJoiner(m.value, p, nonce);
      }
    }
  }
}
