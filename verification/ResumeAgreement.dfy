/** Many resume-auth sessions on a network that drops, replays, reorders and injects. Proofs
    are unforgeable without the secret, so completing a handshake means the peer took part in
    exactly this one. */
module ResumeAgreement {
  import opened Wire
  import opened ResumeAuth

  datatype Party = Party(ctx: Context, st: State)

  /** All sessions, every message any of them has sent, and every nonce drawn. */
  datatype Net = Net(parties: seq<Party>, log: seq<Message>, drawn: set<seq<byte>>)

  const Empty: Net := Net([], [], {})

  datatype Event = Open(ctx: Context) | At(i: nat, input: Input)

  /** A proof the network can produce: junk, one made with a secret it has, or one that some
      session has sent. */
  predicate Knows(leaked: set<seq<byte>>, log: seq<Message>, p: Proof) {
    p.Junk? || p.secret in leaked || exists i :: 0 <= i < |log| && log[i].proof == Some(p)
  }

  predicate Possible(leaked: set<seq<byte>>, n: Net, input: Input) {
    && (input.nonce.Some? ==> input.nonce.value !in n.drawn)
    && (input.HandleCall? && input.payload.Encoded? && input.payload.msg.proof.Some? ==>
          Knows(leaked, n.log, input.payload.msg.proof.value))
  }

  function Apply(leaked: set<seq<byte>>, n: Net, e: Event): Net {
    match e
    case Open(ctx) => if ContextOk(ctx) then n.(parties := n.parties + [Party(ctx, Fresh)]) else n
    case At(i, input) =>
      if i >= |n.parties| || !Possible(leaked, n, input) then n
      else
        var p := n.parties[i];
        var turn := Take(p.ctx, p.st, input);
        Net(n.parties[i := p.(st := turn.state)],
            if turn.reply.out.Some? then n.log + [turn.reply.out.value] else n.log,
            if turn.state.draws > p.st.draws && input.nonce.Some? then n.drawn + {input.nonce.value} else n.drawn)
  }

  function Exec(leaked: set<seq<byte>>, es: seq<Event>): Net {
    if es == [] then Empty else Apply(leaked, Exec(leaked, es[..|es| - 1]), es[|es| - 1])
  }

  // ---------------------------------------------------------------- one session

  function OwnNonce(p: Party): seq<byte> { if p.ctx.role == Offerer then p.st.nonces.offerer else p.st.nonces.joiner }

  /** A proof this session has made. */
  predicate Mine(p: Party, proof: Proof) {
    && proof.Mac? && proof.secret == p.ctx.secret && proof.maker == p.ctx.role
    && p.st.steps != [] && proof.transcript == p.st.nonces.transcript
    && (proof.tag == TAG_READY ==> p.st.result == Some(Keys(p.ctx.secret, p.st.nonces.transcript)))
  }

  predicate PartyOk(p: Party) {
    && ContextOk(p.ctx) && Bounded(p.ctx, p.st)
    && (p.st.phase.AwaitChallenge? ==> |p.st.nonces.offerer| == NONCE_BYTES)
    && (p.st.steps != [] ==>
          && p.st.draws == 1
          && TranscriptOk(p.ctx.transferId, p.ctx.fingerprint, p.st.nonces.offerer, p.st.nonces.joiner)
          && p.st.nonces.transcript == TranscriptFor(p.ctx, p.st.nonces.offerer, p.st.nonces.joiner))
    && (p.st.result.Some? ==> p.st.steps != [] && p.st.result.value == Keys(p.ctx.secret, p.st.nonces.transcript))
    && (forall i :: 0 <= i < |p.st.steps| && p.st.steps[i].responded.Some? && p.st.steps[i].responded.value.proof.Some? ==>
          Mine(p, p.st.steps[i].responded.value.proof.value))
  }

  /** What a session never takes back. */
  predicate Grows(p: Party, q: Party) {
    && q.ctx == p.ctx && p.st.steps <= q.st.steps
    && (p.st.steps != [] ==> q.st.nonces == p.st.nonces)
    && (p.st.draws == 1 ==> OwnNonce(q) == OwnNonce(p))
    && (p.st.result.Some? ==> q.st.result == p.st.result)
    && p.st.draws <= q.st.draws
  }

  lemma TurnGrows(p: Party, input: Input)
    requires PartyOk(p)
    ensures Grows(p, p.(st := Take(p.ctx, p.st, input).state))
  {
    hide Transcript;
  }

  lemma MineGrows(p: Party, q: Party, proof: Proof)
    requires Mine(p, proof) && Grows(p, q)
    ensures Mine(q, proof)
  {}

  lemma TurnOk(p: Party, input: Input)
    requires PartyOk(p)
    ensures PartyOk(p.(st := Take(p.ctx, p.st, input).state))
  {
    hide Transcript, Bounded;
    var q := p.(st := Take(p.ctx, p.st, input).state);
    TakeBounded(p.ctx, p.st, input);
    TurnGrows(p, input);
    PhaseFacts(p);
    forall i | 0 <= i < |q.st.steps| && q.st.steps[i].responded.Some? && q.st.steps[i].responded.value.proof.Some?
      ensures Mine(q, q.st.steps[i].responded.value.proof.value)
    {
      if i < |p.st.steps| { MineGrows(p, q, p.st.steps[i].responded.value.proof.value); }
    }
  }

  lemma PhaseFacts(p: Party)
    requires PartyOk(p)
    ensures p.st.phase.AwaitChallenge? ==> p.st.steps == [] && p.st.draws == 1 && p.st.result == None
    ensures p.st.phase.Idle? ==> p.st == Fresh
    ensures p.st.phase.AwaitReady? || p.st.phase.AwaitConfirm? ==> p.st.steps != []
  {}

  /** Whatever a session sends with a proof in it, it has made itself. */
  lemma SentIsMine(p: Party, input: Input)
    requires PartyOk(p)
    ensures var t := Take(p.ctx, p.st, input);
            t.reply.out.Some? && t.reply.out.value.proof.Some? ==> Mine(p.(st := t.state), t.reply.out.value.proof.value)
  {
    hide Transcript, Bounded;
    PhaseFacts(p);
    if input.HandleCall? { FindStepIs(p.st.steps, input.payload); }
  }

  // ---------------------------------------------------------------- all sessions

  /** Some session with this role made proofs with this secret over this transcript. */
  predicate Witnessed(ps: seq<Party>, secret: seq<byte>, role: Role, transcript: seq<byte>, complete: bool) {
    exists i :: 0 <= i < |ps| && Took(ps[i], secret, role, transcript, complete)
  }

  predicate Took(p: Party, secret: seq<byte>, role: Role, transcript: seq<byte>, complete: bool) {
    && p.ctx.role == role && p.ctx.secret == secret && p.st.steps != [] && p.st.nonces.transcript == transcript
    && (complete ==> p.st.result == Some(Keys(secret, transcript)))
  }

  predicate ProofBacked(ps: seq<Party>, m: Message) {
    m.proof.Some? && m.proof.value.Mac? ==>
      Witnessed(ps, m.proof.value.secret, m.proof.value.maker, m.proof.value.transcript, m.proof.value.tag == TAG_READY)
  }

  /** A completed session's peer accepted its part; a completed offerer's peer completed. */
  predicate ResultBacked(leaked: set<seq<byte>>, ps: seq<Party>, p: Party) {
    p.st.result.Some? && p.ctx.secret !in leaked ==>
      Witnessed(ps, p.ctx.secret, if p.ctx.role == Offerer then Joiner else Offerer,
                p.st.nonces.transcript, p.ctx.role == Offerer)
  }

  predicate NoncesDistinct(n: Net) {
    && (forall i :: 0 <= i < |n.parties| && n.parties[i].st.draws == 1 ==> OwnNonce(n.parties[i]) in n.drawn)
    && (forall i, k :: 0 <= i < k < |n.parties| && n.parties[i].st.draws == 1 && n.parties[k].st.draws == 1 ==>
          OwnNonce(n.parties[i]) != OwnNonce(n.parties[k]))
  }

  predicate Inv(leaked: set<seq<byte>>, n: Net) {
    && (forall i :: 0 <= i < |n.parties| ==> PartyOk(n.parties[i]))
    && (forall i :: 0 <= i < |n.log| ==> ProofBacked(n.parties, n.log[i]))
    && (forall i :: 0 <= i < |n.parties| ==> ResultBacked(leaked, n.parties, n.parties[i]))
    && NoncesDistinct(n)
  }

  predicate AllGrow(ps: seq<Party>, qs: seq<Party>) {
    |ps| <= |qs| && forall i :: 0 <= i < |ps| ==> Grows(ps[i], qs[i])
  }

  lemma WitnessGrows(ps: seq<Party>, qs: seq<Party>, secret: seq<byte>, role: Role, t: seq<byte>, complete: bool)
    requires Witnessed(ps, secret, role, t, complete) && AllGrow(ps, qs)
    ensures Witnessed(qs, secret, role, t, complete)
  {
    var i :| 0 <= i < |ps| && Took(ps[i], secret, role, t, complete);
    assert Grows(ps[i], qs[i]) && Took(qs[i], secret, role, t, complete);
  }

  /** A session completes only on a proof its peer has made over the same transcript. */
  lemma CompletionProof(p: Party, input: Input)
    requires PartyOk(p)
    ensures var q := p.(st := Take(p.ctx, p.st, input).state);
            q.st.result.Some? && p.st.result == None ==>
              && input.HandleCall? && input.payload.Encoded?
              && input.payload.msg.proof == Some(if p.ctx.role == Offerer
                   then Mac(p.ctx.secret, Joiner, TAG_READY, q.st.nonces.transcript)
                   else Mac(p.ctx.secret, Offerer, TAG_OFFERER, q.st.nonces.transcript))
  {
    hide Transcript, Bounded;
    PhaseFacts(p);
  }

  lemma TurnResultBacked(leaked: set<seq<byte>>, n: Net, i: nat, input: Input)
    requires Inv(leaked, n) && i < |n.parties| && Possible(leaked, n, input)
    ensures var p := n.parties[i];
            var q := p.(st := Take(p.ctx, p.st, input).state);
            ResultBacked(leaked, n.parties, q)
  {
    hide Take, NoncesDistinct;
    var p := n.parties[i];
    var q := p.(st := Take(p.ctx, p.st, input).state);
    TurnGrows(p, input);
    CompletionProof(p, input);
    if q.st.result.Some? && p.ctx.secret !in leaked {
      if p.st.result.Some? {
        assert ResultBacked(leaked, n.parties, p);
      } else {
        var proof := input.payload.msg.proof.value;
        var k :| 0 <= k < |n.log| && n.log[k].proof == Some(proof);
        assert ProofBacked(n.parties, n.log[k]);
      }
    }
  }

  lemma UpdateGrows(ps: seq<Party>, i: nat, q: Party)
    requires i < |ps| && Grows(ps[i], q)
    ensures AllGrow(ps, ps[i := q])
  {
    forall k | 0 <= k < |ps| ensures Grows(ps[k], ps[i := q][k]) { if k != i { GrowsSame(ps[k]); } }
  }

  lemma GrowsSame(p: Party)
    ensures Grows(p, p)
  {}

  lemma BackedGrows(leaked: set<seq<byte>>, ps: seq<Party>, qs: seq<Party>, m: Message, p: Party)
    requires AllGrow(ps, qs)
    ensures ProofBacked(ps, m) ==> ProofBacked(qs, m)
    ensures ResultBacked(leaked, ps, p) ==> ResultBacked(leaked, qs, p)
  {
    hide AllGrow, Witnessed;
    if ProofBacked(ps, m) && m.proof.Some? && m.proof.value.Mac? {
      var x := m.proof.value;
      WitnessGrows(ps, qs, x.secret, x.maker, x.transcript, x.tag == TAG_READY);
    }
    if ResultBacked(leaked, ps, p) && p.st.result.Some? && p.ctx.secret !in leaked {
      WitnessGrows(ps, qs, p.ctx.secret, if p.ctx.role == Offerer then Joiner else Offerer,
        p.st.nonces.transcript, p.ctx.role == Offerer);
    }
  }

  lemma DrawIsOwn(p: Party, input: Input)
    requires PartyOk(p)
    ensures var t := Take(p.ctx, p.st, input).state;
            t.draws == 1 && p.st.draws == 0 ==> input.nonce.Some? && OwnNonce(p.(st := t)) == input.nonce.value
    ensures p.st.draws <= 1 && Take(p.ctx, p.st, input).state.draws <= 1
  {
    hide Transcript;
  }

  lemma NoncesStayDistinct(leaked: set<seq<byte>>, n: Net, i: nat, input: Input)
    requires Inv(leaked, n) && i < |n.parties| && Possible(leaked, n, input)
    ensures NoncesDistinct(Apply(leaked, n, At(i, input)))
  {
    hide Take, PartyOk, ProofBacked, ResultBacked;
    var p := n.parties[i];
    TurnGrows(p, input);
    DrawIsOwn(p, input);
  }

  lemma TurnKeepsInv(leaked: set<seq<byte>>, n: Net, i: nat, input: Input)
    requires Inv(leaked, n) && i < |n.parties| && Possible(leaked, n, input)
    ensures Inv(leaked, Apply(leaked, n, At(i, input)))
  {
    hide Take, PartyOk, ProofBacked, ResultBacked, AllGrow, NoncesDistinct, Possible, Grows;
    var p, n' := n.parties[i], Apply(leaked, n, At(i, input));
    var turn := Take(p.ctx, p.st, input);
    var q := p.(st := turn.state);
    TurnGrows(p, input);
    TurnOk(p, input);
    UpdateGrows(n.parties, i, q);
    NoncesStayDistinct(leaked, n, i, input);
    TurnResultBacked(leaked, n, i, input);
    forall k | 0 <= k < |n'.parties| ensures ResultBacked(leaked, n'.parties, n'.parties[k]) {
      BackedGrows(leaked, n.parties, n'.parties, InitMessage([]), n'.parties[k]);
    }
    forall k | 0 <= k < |n'.log| ensures ProofBacked(n'.parties, n'.log[k]) {
      if k < |n.log| {
        BackedGrows(leaked, n.parties, n'.parties, n.log[k], p);
      } else {
        SentBacked(p, input, n'.parties, i);
      }
    }
  }

  lemma SentBacked(p: Party, input: Input, ps: seq<Party>, i: nat)
    requires PartyOk(p) && i < |ps| && ps[i] == p.(st := Take(p.ctx, p.st, input).state)
    ensures var t := Take(p.ctx, p.st, input); t.reply.out.Some? ==> ProofBacked(ps, t.reply.out.value)
  {
    hide Take, PartyOk;
    SentIsMine(p, input);
    var t := Take(p.ctx, p.st, input);
    if t.reply.out.Some? && t.reply.out.value.proof.Some? {
      var x := t.reply.out.value.proof.value;
      assert Took(ps[i], x.secret, x.maker, x.transcript, x.tag == TAG_READY);
    }
  }

  lemma OpenKeepsInv(leaked: set<seq<byte>>, n: Net, ctx: Context)
    requires Inv(leaked, n) && ContextOk(ctx)
    ensures Inv(leaked, n.(parties := n.parties + [Party(ctx, Fresh)]))
  {
    var ps, qs := n.parties, n.parties + [Party(ctx, Fresh)];
    FreshBounded(ctx);
    assert PartyOk(Party(ctx, Fresh));
    forall k | 0 <= k < |ps| ensures Grows(ps[k], qs[k]) { GrowsSame(ps[k]); }
    assert AllGrow(ps, qs);
    hide PartyOk, ProofBacked, ResultBacked, AllGrow, Grows;
    forall k | 0 <= k < |n.log|
      ensures ProofBacked(qs, n.log[k])
    {
      BackedGrows(leaked, ps, qs, n.log[k], Party(ctx, Fresh));
    }
    forall k | 0 <= k < |qs| ensures ResultBacked(leaked, qs, qs[k]) {
      if k < |ps| { BackedGrows(leaked, ps, qs, InitMessage([]), ps[k]); } else { FreshBacked(leaked, qs, ctx); }
    }
  }

  lemma FreshBacked(leaked: set<seq<byte>>, ps: seq<Party>, ctx: Context)
    ensures ResultBacked(leaked, ps, Party(ctx, Fresh))
  {}

  lemma {:induction false} ReachableKeepsInv(leaked: set<seq<byte>>, es: seq<Event>)
    ensures Inv(leaked, Exec(leaked, es))
    decreases |es|
  {
    hide Take, Inv, Possible, Bounded;
    if es == [] {
      EmptyInv(leaked);
    } else {
      ReachableKeepsInv(leaked, es[..|es| - 1]);
      var n, e := Exec(leaked, es[..|es| - 1]), es[|es| - 1];
      match e {
        case Open(ctx) => if ContextOk(ctx) { OpenKeepsInv(leaked, n, ctx); }
        case At(i, input) => if i < |n.parties| && Possible(leaked, n, input) { TurnKeepsInv(leaked, n, i, input); }
      }
    }
  }

  lemma EmptyInv(leaked: set<seq<byte>>)
    ensures Inv(leaked, Empty)
  {}

  // ---------------------------------------------------------------- agreement

  /** Two ends of one attempt. */
  predicate SameAttempt(p: Party, q: Party) {
    && q.ctx.role != p.ctx.role && q.ctx.secret == p.ctx.secret
    && q.ctx.transferId == p.ctx.transferId && q.ctx.fingerprint == p.ctx.fingerprint
    && q.st.nonces == p.st.nonces && q.st.steps != []
  }

  /** In every run, with a secret the network does not have: a joiner that completed has a
      peer that accepted a challenge on the identical transcript, and an offerer that
      completed has a peer that completed with the same keys. The transcripts agree on the
      transfer id, the fingerprint and both nonces. */
  lemma Agreement(leaked: set<seq<byte>>, es: seq<Event>, i: nat)
    requires var ps := Exec(leaked, es).parties;
             i < |ps| && ps[i].st.result.Some? && ps[i].ctx.secret !in leaked
    ensures var ps := Exec(leaked, es).parties;
            exists k :: 0 <= k < |ps| && SameAttempt(ps[i], ps[k])
                        && (ps[i].ctx.role == Offerer ==> ps[k].st.result == ps[i].st.result)
  {
    hide Exec, Transcript, Bounded, NoncesDistinct, ProofBacked;
    ReachableKeepsInv(leaked, es);
    var ps := Exec(leaked, es).parties;
    var p := ps[i];
    var role := if p.ctx.role == Offerer then Joiner else Offerer;
    assert ResultBacked(leaked, ps, p) && PartyOk(p);
    var k :| 0 <= k < |ps| && Took(ps[k], p.ctx.secret, role, p.st.nonces.transcript, p.ctx.role == Offerer);
    assert PartyOk(ps[k]);
    TranscriptInjective(p.ctx.transferId, p.ctx.fingerprint, p.st.nonces.offerer, p.st.nonces.joiner,
                        ps[k].ctx.transferId, ps[k].ctx.fingerprint, ps[k].st.nonces.offerer, ps[k].st.nonces.joiner);
    assert SameAttempt(p, ps[k]);
  }

  /** With fresh nonces no two sessions of one role share a transcript, so the peer above is
      the only one and a completed handshake cannot be replayed to a second session. */
  lemma AttemptsAreUnique(leaked: set<seq<byte>>, es: seq<Event>, i: nat, k: nat)
    requires var ps := Exec(leaked, es).parties;
             && i < |ps| && k < |ps| && i != k && ps[i].ctx.role == ps[k].ctx.role
             && ps[i].st.steps != [] && ps[k].st.steps != []
    ensures var ps := Exec(leaked, es).parties;
            ps[i].st.nonces.transcript != ps[k].st.nonces.transcript
  {
    hide Exec, Transcript, Bounded, ProofBacked, ResultBacked;
    ReachableKeepsInv(leaked, es);
    var ps := Exec(leaked, es).parties;
    var p, q := ps[i], ps[k];
    assert PartyOk(p) && PartyOk(q);
    if p.st.nonces.transcript == q.st.nonces.transcript {
      TranscriptInjective(p.ctx.transferId, p.ctx.fingerprint, p.st.nonces.offerer, p.st.nonces.joiner,
                          q.ctx.transferId, q.ctx.fingerprint, q.st.nonces.offerer, q.st.nonces.joiner);
      assert false;
    }
  }
}
