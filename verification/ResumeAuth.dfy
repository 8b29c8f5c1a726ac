/** One resume-auth attempt: the four-message mutual handshake with idempotent replay,
    conflict detection and terminal failure, over ideal MACs and key derivation. */
module ResumeAuth {
  import opened Wire

  const VERSION: int := 1
  const NONCE_BYTES: int := 32
  const PROOF_BYTES: int := 32
  const SECRET_BYTES: int := 32
  const TAG_JOINER: byte := 1
  const TAG_OFFERER: byte := 2
  const TAG_READY: byte := 3

  datatype Role = Offerer | Joiner

  /** An ideal MAC: it determines the secret, the role whose subkey made it, the tag and the
      transcript. Anything else of that length is junk. */
  datatype Proof = Mac(secret: seq<byte>, maker: Role, tag: byte, transcript: seq<byte>) | Junk(bytes: seq<byte>)

  /** The directional keys of one resumed session: an ideal derivation. */
  datatype Keys = Keys(secret: seq<byte>, transcript: seq<byte>)

  datatype Kind = Init | Challenge | Confirm | Ready | Unknown

  datatype Message = Message(kind: Kind, version: int, role: Option<Role>, nonce: Option<seq<byte>>, proof: Option<Proof>)

  /** What arrives: some spelling of a message, 0 being the canonical one, or other bytes.
      Equal payloads are equal byte strings. */
  datatype Payload = Encoded(msg: Message, spelling: nat) | Garbage

  datatype Error = Malformed | Conflict | Unexpected | BadProof | NoNonce | WrongState

  // ---------------------------------------------------------------- the transcript

  /** "sendbeam/1 resume-auth" */
  const DOMAIN: seq<byte> :=
    [0x73, 0x65, 0x6E, 0x64, 0x62, 0x65, 0x61, 0x6D, 0x2F, 0x31, 0x20,
     0x72, 0x65, 0x73, 0x75, 0x6D, 0x65, 0x2D, 0x61, 0x75, 0x74, 0x68]

  function U32BE(n: nat): seq<byte> {
    [n / 0x100_0000 % 0x100, n / 0x1_0000 % 0x100, n / 0x100 % 0x100, n % 0x100]
  }

  function HexDigit(c: byte): nat {
    if 0x30 <= c <= 0x39 then c - 0x30 else if 0x61 <= c <= 0x66 then c - 0x61 + 10 else 0
  }

  function HexDecode(s: seq<byte>): seq<byte> {
    if |s| < 2 then []
    else
      var hi, lo := HexDigit(s[0]), HexDigit(s[1]);
      [16 * hi + lo] + HexDecode(s[2..])
  }

  predicate IsHex(s: seq<byte>) { LowerHex(s, |s|) && |s| % 2 == 0 }

  lemma {:induction false} HexDecodeLength(s: seq<byte>)
    ensures |HexDecode(s)| == |s| / 2
    decreases |s|
  {
    if |s| >= 2 { HexDecodeLength(s[2..]); }
  }

  lemma {:induction false} HexDecodeInjective(a: seq<byte>, b: seq<byte>)
    requires IsHex(a) && IsHex(b) && HexDecode(a) == HexDecode(b)
    ensures a == b
    decreases |a|
  {
    HexDecodeLength(a);
    HexDecodeLength(b);
    if |a| >= 2 {
      var ra, rb := HexDecode(a[2..]), HexDecode(b[2..]);
      assert HexDecode(a)[0] == HexDecode(b)[0] && HexDecode(a)[1..] == ra && HexDecode(b)[1..] == rb;
      HexDecodeInjective(a[2..], b[2..]);
      assert a == [a[0], a[1]] + a[2..] && b == [b[0], b[1]] + b[2..];
    }
  }

  predicate TranscriptOk(transferId: seq<byte>, fingerprint: seq<byte>, offererNonce: seq<byte>,
      joinerNonce: seq<byte>) {
    && LowerHex(transferId, 32) && LowerHex(fingerprint, 64)
    && |offererNonce| == NONCE_BYTES && |joinerNonce| == NONCE_BYTES
  }

  function Transcript(transferId: seq<byte>, fingerprint: seq<byte>, offererNonce: seq<byte>,
      joinerNonce: seq<byte>): seq<byte> {
    DOMAIN + U32BE(VERSION) + HexDecode(transferId) + HexDecode(fingerprint) + offererNonce + joinerNonce
  }

  lemma FieldsOf(head: seq<byte>, a: seq<byte>, b: seq<byte>, c: seq<byte>, d: seq<byte>)
    ensures var x, n := head + a + b + c + d, |head|;
            && x[n..n + |a|] == a && x[n + |a|..n + |a| + |b|] == b
            && x[n + |a| + |b|..n + |a| + |b| + |c|] == c && x[n + |a| + |b| + |c|..] == d
  {}

  /** The fixed-width transcript determines everything it is built from. */
  lemma TranscriptInjective(t1: seq<byte>, f1: seq<byte>, o1: seq<byte>, j1: seq<byte>,
                            t2: seq<byte>, f2: seq<byte>, o2: seq<byte>, j2: seq<byte>)
    requires TranscriptOk(t1, f1, o1, j1) && TranscriptOk(t2, f2, o2, j2)
    requires Transcript(t1, f1, o1, j1) == Transcript(t2, f2, o2, j2)
    ensures t1 == t2 && f1 == f2 && o1 == o2 && j1 == j2
  {
    hide HexDecode, U32BE;
    HexDecodeLength(t1);
    HexDecodeLength(t2);
    HexDecodeLength(f1);
    HexDecodeLength(f2);
    var head := DOMAIN + U32BE(VERSION);
    FieldsOf(head, HexDecode(t1), HexDecode(f1), o1, j1);
    FieldsOf(head, HexDecode(t2), HexDecode(f2), o2, j2);
    HexDecodeInjective(t1, t2);
    HexDecodeInjective(f1, f2);
  }

  // ---------------------------------------------------------------- messages

  predicate NonceOk(n: Option<seq<byte>>) { n.Some? && |n.value| == NONCE_BYTES }

  predicate ProofOk(p: Option<Proof>) { p.Some? && (p.value.Junk? ==> |p.value.bytes| == PROOF_BYTES) }

  /** The field contract of each message type. */
  predicate MessageOk(m: Message) {
    && m.version == VERSION
    && (match m.kind
        case Init => m.role == Some(Offerer) && NonceOk(m.nonce) && m.proof == None
        case Challenge => m.role == Some(Joiner) && NonceOk(m.nonce) && ProofOk(m.proof)
        case Confirm => m.role == Some(Offerer) && m.nonce == None && ProofOk(m.proof)
        case Ready => m.role == Some(Joiner) && m.nonce == None && ProofOk(m.proof)
        case Unknown => false)
  }

  function Decode(p: Payload): Option<Message> {
    if p.Encoded? && MessageOk(p.msg) then Some(p.msg) else None
  }

  function Canonical(m: Message): Payload { Encoded(m, 0) }

  // ---------------------------------------------------------------- the session

  datatype Context = Context(role: Role, transferId: seq<byte>, fingerprint: seq<byte>, secret: seq<byte>)

  predicate ContextOk(c: Context) {
    LowerHex(c.transferId, 32) && LowerHex(c.fingerprint, 64) && |c.secret| == SECRET_BYTES
  }

  datatype Phase = Idle | AwaitChallenge | AwaitReady | AwaitConfirm | Done | Failed(error: Error)

  /** An accepted message and the response it was given, if any. */
  datatype Step = Step(accepted: Payload, responded: Option<Message>)

  datatype Nonces = Nonces(offerer: seq<byte>, joiner: seq<byte>, transcript: seq<byte>)

  /** `draws` counts the fresh nonces taken so far. */
  datatype State = State(phase: Phase, nonces: Nonces, steps: seq<Step>, result: Option<Keys>, draws: nat)

  const Fresh: State := State(Idle, Nonces([], [], []), [], None, 0)

  datatype Reply = Reply(out: Option<Message>, result: Option<Keys>, error: Option<Error>)

  datatype Turn = Turn(state: State, reply: Reply)

  function Fail(s: State, e: Error): Turn { Turn(s.(phase := Phase.Failed(e)), Reply(None, None, Some(e))) }

  function InitMessage(nonce: seq<byte>): Message { Message(Init, VERSION, Some(Offerer), Some(nonce), None) }

  function ChallengeMessage(nonce: seq<byte>, p: Proof): Message {
    Message(Challenge, VERSION, Some(Joiner), Some(nonce), Some(p))
  }

  function ConfirmMessage(p: Proof): Message { Message(Confirm, VERSION, Some(Offerer), None, Some(p)) }

  function ReadyMessage(p: Proof): Message { Message(Ready, VERSION, Some(Joiner), None, Some(p)) }

  function TranscriptFor(c: Context, offerer: seq<byte>, joiner: seq<byte>): seq<byte> {
    Transcript(c.transferId, c.fingerprint, offerer, joiner)
  }

  /** `nonce` is what the nonce source yields, should it be asked; None when it fails. A call
      in the wrong state, or by the joiner, is an error that changes nothing. */
  function Start(c: Context, s: State, nonce: Option<seq<byte>>): Turn {
    if s.phase != Idle || c.role == Joiner then Turn(s, Reply(None, None, Some(WrongState)))
    else if !NonceOk(nonce) then Fail(s, NoNonce)
    else Turn(s.(phase := AwaitChallenge, nonces := s.nonces.(offerer := nonce.value), draws := s.draws + 1),
              Reply(Some(InitMessage(nonce.value)), None, None))
  }

  /** The snapshot of an accepted message with exactly these bytes. */
  function FindStep(steps: seq<Step>, p: Payload): Option<Step> {
    if steps == [] then None
    else if steps[0].accepted == p then Some(steps[0])
    else FindStep(steps[1..], p)
  }

  function AcceptChallenge(c: Context, s: State, m: Message, p: Payload): Turn
    requires m.nonce.Some? && m.proof.Some?
  {
    var t := TranscriptFor(c, s.nonces.offerer, m.nonce.value);
    var s1 := s.(nonces := Nonces(s.nonces.offerer, m.nonce.value, t));
    if m.proof.value != Mac(c.secret, Joiner, TAG_JOINER, t) then Fail(s1, BadProof)
    else
      var confirm := ConfirmMessage(Mac(c.secret, Offerer, TAG_OFFERER, t));
      Turn(s1.(phase := AwaitReady, steps := s.steps + [Step(p, Some(confirm))]), Reply(Some(confirm), None, None))
  }

  function HandleOfferer(c: Context, s: State, m: Message, p: Payload): Turn
    requires MessageOk(m)
  {
    match m.kind
    case Challenge => if s.phase != AwaitChallenge then Fail(s, Conflict) else AcceptChallenge(c, s, m, p)
    case Ready =>
      if s.phase != AwaitReady then Fail(s, Unexpected)
      else if m.proof.value != Mac(c.secret, Joiner, TAG_READY, s.nonces.transcript) then Fail(s, BadProof)
      else
        var keys := Keys(c.secret, s.nonces.transcript);
        Turn(s.(phase := Phase.Done, steps := s.steps + [Step(p, None)], result := Some(keys)), Reply(None, Some(keys), None))
    case _ => Fail(s, Unexpected)
  }

  function AcceptInit(c: Context, s: State, m: Message, p: Payload, nonce: Option<seq<byte>>): Turn
    requires m.nonce.Some?
  {
    var s1 := s.(nonces := s.nonces.(offerer := m.nonce.value));
    if !NonceOk(nonce) then Fail(s1, NoNonce)
    else
      var t := TranscriptFor(c, m.nonce.value, nonce.value);
      var challenge := ChallengeMessage(nonce.value, Mac(c.secret, Joiner, TAG_JOINER, t));
      Turn(State(AwaitConfirm, Nonces(m.nonce.value, nonce.value, t), s.steps + [Step(p, Some(challenge))],
                 s.result, s.draws + 1),
           Reply(Some(challenge), None, None))
  }

  function HandleJoiner(c: Context, s: State, m: Message, p: Payload, nonce: Option<seq<byte>>): Turn
    requires MessageOk(m)
  {
    match m.kind
    case Init => if s.phase != Idle then Fail(s, Conflict) else AcceptInit(c, s, m, p, nonce)
    case Confirm =>
      if s.phase != AwaitConfirm then Fail(s, Conflict)
      else if m.proof.value != Mac(c.secret, Offerer, TAG_OFFERER, s.nonces.transcript) then Fail(s, BadProof)
      else
        var ready := ReadyMessage(Mac(c.secret, Joiner, TAG_READY, s.nonces.transcript));
        var keys := Keys(c.secret, s.nonces.transcript);
        Turn(s.(phase := Phase.Done, steps := s.steps + [Step(p, Some(ready))], result := Some(keys)),
             Reply(Some(ready), Some(keys), None))
    case _ => Fail(s, Unexpected)
  }

  function Handle(c: Context, s: State, p: Payload, nonce: Option<seq<byte>>): Turn {
    if s.phase.Failed? then Turn(s, Reply(None, None, Some(s.phase.error)))
    else match Decode(p)
      case None => Fail(s, Malformed)
      case Some(m) =>
        var known := FindStep(s.steps, p);
        if known.Some? then Turn(s, Reply(known.value.responded, s.result, None))
        else if c.role == Offerer then HandleOfferer(c, s, m, p)
        else HandleJoiner(c, s, m, p, nonce)
  }

  // ---------------------------------------------------------------- every message sequence

  datatype Input = StartCall(nonce: Option<seq<byte>>) | HandleCall(payload: Payload, nonce: Option<seq<byte>>)

  function Take(c: Context, s: State, i: Input): Turn {
    match i
    case StartCall(nonce) => Start(c, s, nonce)
    case HandleCall(p, nonce) => Handle(c, s, p, nonce)
  }

  function Run(c: Context, inputs: seq<Input>): State {
    if inputs == [] then Fresh else Take(c, Run(c, inputs[..|inputs| - 1]), inputs[|inputs| - 1]).state
  }

  /** How the phase bounds what has been drawn and accepted. */
  predicate Bounded(c: Context, s: State) {
    && s.draws <= 1 && |s.steps| <= 2
    && (match s.phase
        case Idle => s == Fresh
        case AwaitChallenge => c.role == Offerer && s.draws == 1 && s.steps == [] && s.result == None
        case AwaitReady => c.role == Offerer && |s.steps| == 1 && s.result == None
        case AwaitConfirm => c.role == Joiner && s.draws == 1 && |s.steps| == 1 && s.result == None
        case Done => |s.steps| == 2 && s.result.Some?
        case Failed(_) => true)
    && (forall i :: 0 <= i < |s.steps| ==> Decode(s.steps[i].accepted).Some?)
    && (forall i, j :: 0 <= i < j < |s.steps| ==> s.steps[i].accepted != s.steps[j].accepted)
  }

  lemma {:induction false} FindStepIs(steps: seq<Step>, p: Payload)
    ensures FindStep(steps, p).Some? <==> exists i :: 0 <= i < |steps| && steps[i].accepted == p
    ensures FindStep(steps, p).Some? ==> FindStep(steps, p).value in steps && FindStep(steps, p).value.accepted == p
  {
    if steps != [] {
      FindStepIs(steps[1..], p);
      if i :| 0 <= i < |steps| && steps[i].accepted == p {
        assert i > 0 ==> steps[1..][i - 1].accepted == p;
      }
    }
  }

  lemma TakeBounded(c: Context, s: State, i: Input)
    requires Bounded(c, s)
    ensures Bounded(c, Take(c, s, i).state)
  {
    hide Transcript, TranscriptFor, FindStep;
    if i.HandleCall? { FindStepIs(s.steps, i.payload); }
  }

  /** Every message sequence draws at most one nonce and records at most two steps. */
  lemma {:induction false} AtMostOneNonceTwoSteps(c: Context, inputs: seq<Input>)
    ensures Bounded(c, Run(c, inputs))
    decreases |inputs|
  {
    hide Take, Bounded;
    if inputs == [] {
      FreshBounded(c);
    } else {
      AtMostOneNonceTwoSteps(c, inputs[..|inputs| - 1]);
      TakeBounded(c, Run(c, inputs[..|inputs| - 1]), inputs[|inputs| - 1]);
    }
  }

  lemma FreshBounded(c: Context)
    ensures Bounded(c, Fresh)
  {}

  /** Recorded steps, failures and results are final. */
  lemma TakeMonotone(c: Context, s: State, i: Input)
    ensures var t := Take(c, s, i).state;
            && s.steps <= t.steps
            && (s.phase.Failed? ==> t == s)
  {
    hide Transcript;
  }

  lemma {:induction false} RunMonotone(c: Context, a: seq<Input>, b: seq<Input>)
    ensures var s, t := Run(c, a), Run(c, a + b);
            s.steps <= t.steps && (s.phase.Failed? ==> t == s)
    decreases |b|
  {
    hide Take;
    if b == [] {
      assert a + b == a;
    } else {
      RunMonotone(c, a, b[..|b| - 1]);
      assert (a + b)[..|a + b| - 1] == a + b[..|b| - 1];
      TakeMonotone(c, Run(c, a + b[..|b| - 1]), b[|b| - 1]);
    }
  }

  /** A message that was accepted once is answered the same way, byte for byte, for as long as
      the session has not failed, and changes nothing. */
  lemma DuplicateIsIdempotent(c: Context, before: seq<Input>, p: Payload, nonce: Option<seq<byte>>,
      between: seq<Input>, again: Option<seq<byte>>)
    requires Handle(c, Run(c, before), p, nonce).reply.error == None
    requires !Run(c, before + [HandleCall(p, nonce)] + between).phase.Failed?
    ensures var s := Run(c, before + [HandleCall(p, nonce)] + between);
            && Handle(c, s, p, again).state == s
            && Handle(c, s, p, again).reply.out == Handle(c, Run(c, before), p, nonce).reply.out
            && Handle(c, s, p, again).reply.error == None
  {
    var s0, first := Run(c, before), before + [HandleCall(p, nonce)];
    assert first[..|first| - 1] == before;
    var s1 := Run(c, first);
    AcceptedIsRecorded(c, s0, p, nonce);
    RunMonotone(c, first, between);
    var s := Run(c, first + between);
    AtMostOneNonceTwoSteps(c, first + between);
    hide Run, Handle;
    RecordedIsAnswered(c, s, p, again, s1, Handle(c, s0, p, nonce).reply.out);
  }

  lemma AcceptedIsRecorded(c: Context, s: State, p: Payload, nonce: Option<seq<byte>>)
    requires Handle(c, s, p, nonce).reply.error == None
    ensures var t := Handle(c, s, p, nonce);
            exists i :: 0 <= i < |t.state.steps| && t.state.steps[i] == Step(p, t.reply.out)
    ensures Decode(p).Some?
  {
    hide Transcript;
    FindStepIs(s.steps, p);
    var t := Handle(c, s, p, nonce);
    if FindStep(s.steps, p) == None {
      assert t.state.steps[|s.steps|] == Step(p, t.reply.out);
    } else {
      assert FindStep(s.steps, p).value == Step(p, t.reply.out);
    }
  }

  lemma RecordedIsAnswered(c: Context, s: State, p: Payload, nonce: Option<seq<byte>>, s1: State, out: Option<Message>)
    requires Bounded(c, s) && !s.phase.Failed? && s1.steps <= s.steps && Decode(p).Some?
    requires exists i :: 0 <= i < |s1.steps| && s1.steps[i] == Step(p, out)
    ensures Handle(c, s, p, nonce) == Turn(s, Reply(out, s.result, None))
  {
    var i :| 0 <= i < |s1.steps| && s1.steps[i] == Step(p, out);
    assert s.steps[i] == Step(p, out);
    FindStepIs(s.steps, p);
    var k :| 0 <= k < |s.steps| && s.steps[k] == FindStep(s.steps, p).value;
  }

  /** Once failed, a session returns the same error forever and never yields keys. */
  lemma FailureIsTerminal(c: Context, a: seq<Input>, b: seq<Input>, p: Payload, nonce: Option<seq<byte>>)
    requires Run(c, a).phase.Failed?
    ensures Handle(c, Run(c, a + b), p, nonce).reply == Reply(None, None, Some(Run(c, a).phase.error))
    ensures Start(c, Run(c, a + b), nonce).reply.out == None && Start(c, Run(c, a + b), nonce).reply.result == None
  {
    RunMonotone(c, a, b);
  }
}
