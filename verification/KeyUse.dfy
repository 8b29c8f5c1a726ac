/** Every pair of directional key and counter, across preambles, engines and many sessions. */
module KeyUse {
  import opened Wire
  import opened ResumeAuth
  import P = Preamble
  import N = ResumeAgreement
  import E = Engine
  import ER = EngineResults
  import ReceiverSafety

  /** A directional key: of one rendezvous session, or of the resumed epoch of one attempt. The
      role is the side that seals with it. */
  datatype Key = Session(conn: nat, maker: Role) | Resumed(keys: Keys, maker: Role)

  datatype Use = Use(key: Key, counter: nat)

  /** The resume handshake of one end: which attempt of the network run it is, and the calls its
      preamble got. */
  datatype Attempt = Attempt(party: nat, ctx: Context, recv: nat, calls: seq<P.Call>)

  /** One end of one connection. The rendezvous has sealed the counters below `send`; then comes
      a resume handshake, or none, and then the engine with its link. */
  datatype End = End(role: Role, conn: nat, send: nat, resume: Option<Attempt>, engine: Link)

  function PreambleOf(e: End): P.Pre
    requires e.resume.Some?
  {
    P.Run(e.resume.value.ctx, e.send, e.resume.value.recv, e.resume.value.calls)
  }

  function SessionKey(e: End): Key { Session(e.conn, e.role) }

  function RendezvousUses(e: End): seq<Use> {
    seq(e.send, i requires 0 <= i < e.send => Use(SessionKey(e), i))
  }

  function PreambleUses(e: End): seq<Use> {
    if e.resume == None then []
    else
      var seals := PreambleOf(e).seals;
      seq(|seals|, i requires 0 <= i < |seals| => Use(SessionKey(e), seals[i].counter))
  }

  /** Without a handshake the engine goes on with the session key and its counters. With one it
      seals only once its preamble has handed it keys, and starts them at zero. */
  function EngineUses(e: End): seq<Use> {
    var used := e.engine.sealer.used;
    if e.resume == None then
      seq(|used|, i requires 0 <= i < |used| => Use(SessionKey(e), e.send + used[i]))
    else if PreambleOf(e).outcome.result == None then []
    else
      seq(|used|, i requires 0 <= i < |used| => Use(Resumed(PreambleOf(e).outcome.result.value, e.role), used[i]))
  }

  function Uses(e: End): seq<Use> { RendezvousUses(e) + PreambleUses(e) + EngineUses(e) }

  /** The link of the sending engine for an offerer, of the receiving engine for a joiner, after
      some run of the two. */
  ghost predicate FromARun(role: Role, l: Link) {
    exists x: ReceiverSafety.Setup, es: seq<E.Event> :: ReceiverSafety.SetupOk(x) && LinkOf(x, es, role) == l
  }

  function LinkOf(x: ReceiverSafety.Setup, es: seq<E.Event>, role: Role): Link
    requires ReceiverSafety.SetupOk(x)
  {
    if role == Offerer then E.Exec(x, es).s.link else E.Exec(x, es).r.link
  }

  ghost predicate EndOk(e: End) {
    && FromARun(e.role, e.engine)
    && (e.resume.Some? ==> P.InOrder(e.resume.value.ctx, e.resume.value.calls) && e.resume.value.ctx.role == e.role)
  }

  lemma EngineSealsOnce(role: Role, l: Link)
    requires FromARun(role, l)
    ensures ER.UsedOnce(l)
  {
    hide E.Exec, ReceiverSafety.SetupOk, ER.UsedOnce;
    var x: ReceiverSafety.Setup, es: seq<E.Event> :| ReceiverSafety.SetupOk(x) && LinkOf(x, es, role) == l;
    ER.SealedOnce(x, es);
  }

  predicate Distinct(us: seq<Use>) { forall i, j :: 0 <= i < j < |us| ==> us[i] != us[j] }

  lemma JoinDistinct(a: seq<Use>, b: seq<Use>)
    requires Distinct(a) && Distinct(b) && forall i, j :: 0 <= i < |a| && 0 <= j < |b| ==> a[i] != b[j]
    ensures Distinct(a + b)
  {}

  /** The preamble goes on with the counters the rendezvous left. */
  lemma PreambleSealsOnce(e: End)
    requires EndOk(e)
    ensures Distinct(PreambleUses(e))
    ensures forall i :: 0 <= i < |PreambleUses(e)| ==>
              PreambleUses(e)[i].key == SessionKey(e) && e.send <= PreambleUses(e)[i].counter
  {
    hide P.Run, FromARun;
    if e.resume.Some? {
      var r := e.resume.value;
      P.NeverSealedTwice(r.ctx, e.send, r.recv, r.calls);
      assert forall i :: 0 <= i < |PreambleUses(e)| ==> PreambleUses(e)[i].counter == e.send + i;
    }
  }

  /** One end never seals two frames under one key and counter, from the rendezvous through its
      preamble, if it has one, to the last frame of its engine. */
  lemma OneEndSealsOnce(e: End)
    requires EndOk(e)
    ensures Distinct(Uses(e))
  {
    hide P.Run, FromARun, PreambleUses;
    PreambleSealsOnce(e);
    hide RendezvousUses, EngineUses, EndOk;
    var a, b, c := RendezvousUses(e), PreambleUses(e), EngineUses(e);
    forall i | 0 <= i < |a| ensures a[i].key == SessionKey(e) && a[i].counter < e.send { RendezvousUse(e, i); }
    JoinDistinct(a, b);
    if e.resume == None { NoPreamble(e); }
    forall i, j | 0 <= i < |a + b| && 0 <= j < |c| ensures (a + b)[i] != c[j] {
      EngineUse(e, j);
      assert (a + b)[i] == (if i < |a| then a[i] else b[i - |a|]);
    }
    EngineUsesDistinct(e);
    JoinDistinct(a + b, c);
  }

  lemma RendezvousUse(e: End, i: nat)
    requires i < |RendezvousUses(e)|
    ensures RendezvousUses(e)[i] == Use(SessionKey(e), i) && i < e.send
  {}

  lemma EngineUse(e: End, j: nat)
    requires j < |EngineUses(e)|
    ensures var u := EngineUses(e)[j];
            if e.resume == None then u.key == SessionKey(e) && e.send <= u.counter
            else PreambleOf(e).outcome.result.Some? && u.key == Resumed(PreambleOf(e).outcome.result.value, e.role)
  {
    hide P.Run;
  }

  lemma PreambleUse(e: End, j: nat)
    requires j < |PreambleUses(e)|
    ensures PreambleUses(e)[j].key == SessionKey(e)
  {
    hide P.Run;
  }

  lemma EngineUsesDistinct(e: End)
    requires EndOk(e)
    ensures Distinct(EngineUses(e))
  {
    hide P.Run, FromARun;
    EngineSealsOnce(e.role, e.engine);
  }

  lemma NoPreamble(e: End)
    requires e.resume == None
    ensures PreambleUses(e) == []
  {}

  // ---------------------------------------------------------------- many sessions

  /** Each end that resumes is one attempt of the network run, with the same context and the
      session inside its preamble, and has it to itself; and no two ends of one role share a
      rendezvous session. */
  ghost predicate Attached(n: N.Net, ends: seq<End>) {
    && (forall i :: 0 <= i < |ends| ==> EndOk(ends[i]))
    && (forall i :: 0 <= i < |ends| && ends[i].resume.Some? ==>
          var r := ends[i].resume.value;
          r.party < |n.parties| && r.ctx == n.parties[r.party].ctx && PreambleOf(ends[i]).auth == n.parties[r.party].st)
    && (forall i, k :: 0 <= i < k < |ends| && ends[i].resume.Some? && ends[k].resume.Some? ==>
          ends[i].resume.value.party != ends[k].resume.value.party)
    && (forall i, k :: 0 <= i < k < |ends| && ends[i].role == ends[k].role ==> ends[i].conn != ends[k].conn)
  }

  /** Two completed attempts of one role have different keys. */
  lemma KeysDiffer(leaked: set<seq<byte>>, es: seq<N.Event>, i: nat, k: nat)
    requires var ps := N.Exec(leaked, es).parties;
             && i < |ps| && k < |ps| && i != k && ps[i].ctx.role == ps[k].ctx.role
             && ps[i].st.result.Some? && ps[k].st.result.Some?
    ensures var ps := N.Exec(leaked, es).parties; ps[i].st.result != ps[k].st.result
  {
    hide N.Exec, Bounded, N.ProofBacked, N.ResultBacked, N.NoncesDistinct;
    N.ReachableKeepsInv(leaked, es);
    var ps := N.Exec(leaked, es).parties;
    assert N.PartyOk(ps[i]) && N.PartyOk(ps[k]);
    N.AttemptsAreUnique(leaked, es, i, k);
  }

  lemma EndKeys(e: End)
    requires e.resume.Some?
    ensures PreambleOf(e).outcome.result.Some? ==> PreambleOf(e).outcome.result == PreambleOf(e).auth.result
  {
    P.ResultIsSessions(e.resume.value.ctx, e.send, e.resume.value.recv, e.resume.value.calls);
  }

  /** What key an entry of the uses of an end belongs to. */
  lemma KeyOfUse(e: End, a: nat)
    requires a < |Uses(e)|
    ensures var key := Uses(e)[a].key;
            && key.maker == e.role
            && (key.Session? ==> key.conn == e.conn)
            && (key.Resumed? ==> e.resume.Some? && PreambleOf(e).outcome.result == Some(key.keys))
  {
    hide P.Run, RendezvousUses, PreambleUses, EngineUses;
    var p, q, r := RendezvousUses(e), PreambleUses(e), EngineUses(e);
    if a < |p| {
      RendezvousUse(e, a);
      assert Uses(e)[a] == p[a];
    } else if a < |p| + |q| {
      PreambleUse(e, a - |p|);
      assert Uses(e)[a] == q[a - |p|];
    } else {
      EngineUse(e, a - |p| - |q|);
      assert Uses(e)[a] == r[a - |p| - |q|];
    }
  }

  /** The keys two resumed ends of one role ended up with. */
  lemma EndKeysDiffer(leaked: set<seq<byte>>, es: seq<N.Event>, ends: seq<End>, i: nat, k: nat)
    requires Attached(N.Exec(leaked, es), ends) && i < |ends| && k < |ends| && i != k && ends[i].role == ends[k].role
    requires ends[i].resume.Some? && PreambleOf(ends[i]).outcome.result.Some?
    requires ends[k].resume.Some? && PreambleOf(ends[k]).outcome.result.Some?
    ensures PreambleOf(ends[i]).outcome.result != PreambleOf(ends[k]).outcome.result
  {
    hide N.Exec, P.Run, FromARun, P.InOrder;
    assert EndOk(ends[i]) && EndOk(ends[k]);
    EndKeys(ends[i]);
    EndKeys(ends[k]);
    KeysDiffer(leaked, es, ends[i].resume.value.party, ends[k].resume.value.party);
  }

  /** Over any number of sessions, resumed or not, with replays, injections and leaked secrets:
      no two frames of any end, in any rendezvous, preamble or engine, are ever sealed under the
      same directional key and counter. */
  lemma NoPairUsedTwice(leaked: set<seq<byte>>, es: seq<N.Event>, ends: seq<End>, i: nat, a: nat, k: nat, b: nat)
    requires Attached(N.Exec(leaked, es), ends)
    requires i < |ends| && k < |ends| && a < |Uses(ends[i])| && b < |Uses(ends[k])| && (i != k || a != b)
    ensures Uses(ends[i])[a] != Uses(ends[k])[b]
  {
    hide N.Exec, Uses, P.Run, EndOk;
    if i == k {
      OneEndSealsOnce(ends[i]);
    } else if Uses(ends[i])[a].key == Uses(ends[k])[b].key {
      KeyOfUse(ends[i], a);
      KeyOfUse(ends[k], b);
      if Uses(ends[i])[a].key.Resumed? { EndKeysDiffer(leaked, es, ends, i, k); }
      assert false;
    }
  }
}
