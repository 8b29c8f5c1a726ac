/** Two relay ends and the channel between them: credit is conserved over every run, so the
    early buffer never overflows, and which frame sizes can always be sent eventually. */
module RelayFlow {
  import opened Wire
  import opened Relay

  datatype Packet = Data(frame: Payload) | Credit(bytes: int)

  /** One end with what its goroutines hold outside the lock: frames handed to the consumer
      and not yet accounted for, and grants not yet handed to the channel. */
  datatype Side = Side(
    conn: End, busy: seq<Payload>, owed: seq<int>, delivered: seq<Payload>, sent: seq<Payload>)

  /** What a failed write or a closed end has swallowed, per direction. */
  datatype Lost = Lost(bytes: int, frames: seq<Payload>)

  datatype Net = Net(l: Side, r: Side, toR: seq<Packet>, toL: seq<Packet>, lostLR: Lost, lostRL: Lost)

  const FreshSide: Side := Side(FreshEnd, [], [], [], [])
  const FreshNet: Net := Net(FreshSide, FreshSide, [], [], Lost(0, []), Lost(0, []))

  function Mirror(n: Net): Net { Net(n.r, n.l, n.toL, n.toR, n.lostRL, n.lostLR) }

  /** What can happen at one end. Deliveries and the accounting of handled frames may come in
      any order; a write may fail. */
  datatype Act =
    | Ready
    | Grant(k: nat, writeOk: bool)
    | Send(frame: Payload, writeOk: bool)
    | Take(k: nat)
    | InstallHandler
    | Finish(k: nat)
    | Shut

  datatype Event = AtLeft(act: Act) | AtRight(act: Act)

  function Remove<T>(s: seq<T>, k: nat): seq<T>
    requires k < |s|
  {
    s[..k] + s[k + 1..]
  }

  function Lose(l: Lost, bytes: int, frames: seq<Payload>): Lost {
    Lost(l.bytes + bytes, l.frames + frames)
  }

  function TakePacket(n: Net, k: nat): Net
    requires k < |n.toL|
  {
    var rest := n.(toL := Remove(n.toL, k));
    match n.toL[k]
    case Credit(bytes) => rest.(l := n.l.(conn := OnCredit(n.l.conn, bytes)))
    case Data(f) =>
      match ReceiptOf(n.l.conn, f)
      case Delivered => rest.(l := n.l.(busy := n.l.busy + [f]))
      case Buffered => rest.(l := n.l.(conn := OnBinary(n.l.conn, f)))
      case Discarded => rest.(lostRL := Lose(n.lostRL, |f|, [f]))
  }

  function FinishFrame(n: Net, k: nat): Net
    requires k < |n.l.busy|
  {
    var f := n.l.busy[k];
    var (c, grant) := Account(n.l.conn, |f|);
    n.(l := n.l.(conn := c, busy := Remove(n.l.busy, k), delivered := n.l.delivered + [f],
                 owed := if grant > 0 then n.l.owed + [grant] else n.l.owed))
  }

  function SendFrame(n: Net, f: Payload, writeOk: bool): Net {
    if SendStatus(n.l.conn, |f|) != Sends then n
    else
      var n1 := n.(l := n.l.(conn := Spend(n.l.conn, |f|), sent := n.l.sent + [f]));
      if writeOk then n1.(toR := n.toR + [Data(f)]) else n1.(lostLR := Lose(n.lostLR, |f|, [f]))
  }

  function GrantCredit(n: Net, k: nat, writeOk: bool): Net
    requires k < |n.l.owed|
  {
    var n1 := n.(l := n.l.(owed := Remove(n.l.owed, k)));
    if writeOk then n1.(toR := n.toR + [Credit(n.l.owed[k])]) else n1.(lostRL := Lose(n.lostRL, n.l.owed[k], []))
  }

  function ActLeft(n: Net, a: Act): Net {
    match a
    case Ready =>
      var (c, grant) := OnReady(n.l.conn);
      n.(l := n.l.(conn := c, owed := if grant > 0 then n.l.owed + [grant] else n.l.owed))
    case Grant(k, writeOk) => if k < |n.l.owed| then GrantCredit(n, k, writeOk) else n
    case Send(f, writeOk) => SendFrame(n, f, writeOk)
    case Take(k) => if k < |n.toL| then TakePacket(n, k) else n
    case InstallHandler =>
      var (c, frames) := Install(n.l.conn);
      n.(l := n.l.(conn := c, busy := n.l.busy + frames))
    case Finish(k) => if k < |n.l.busy| then FinishFrame(n, k) else n
    case Shut => n.(l := n.l.(conn := n.l.conn.(closed := true)))
  }

  function Apply(n: Net, e: Event): Net {
    match e
    case AtLeft(a) => ActLeft(n, a)
    case AtRight(a) => Mirror(ActLeft(Mirror(n), a))
  }

  function Exec(es: seq<Event>): Net {
    if es == [] then FreshNet else Apply(Exec(es[..|es| - 1]), es[|es| - 1])
  }

  // ---------------------------------------------------------------- sums

  function Frames(wire: seq<Packet>): seq<Payload> {
    if wire == [] then []
    else
      var rest, p := Frames(wire[..|wire| - 1]), wire[|wire| - 1];
      if p.Data? then rest + [p.frame] else rest
  }

  function Credits(wire: seq<Packet>): seq<int> {
    if wire == [] then []
    else
      var rest, p := Credits(wire[..|wire| - 1]), wire[|wire| - 1];
      if p.Credit? then rest + [p.bytes] else rest
  }

  lemma {:induction false} BytesConcat(a: seq<Payload>, b: seq<Payload>)
    ensures Bytes(a + b) == Bytes(a) + Bytes(b)
    decreases |b|
  {
    if b == [] { assert a + b == a; }
    else {
      assert (a + b)[..|a + b| - 1] == a + b[..|b| - 1];
      BytesConcat(a, b[..|b| - 1]);
    }
  }

  lemma {:induction false} SumConcat(a: seq<int>, b: seq<int>)
    ensures Sum(a + b) == Sum(a) + Sum(b)
    decreases |b|
  {
    if b == [] { assert a + b == a; }
    else {
      assert (a + b)[..|a + b| - 1] == a + b[..|b| - 1];
      SumConcat(a, b[..|b| - 1]);
    }
  }

  lemma {:induction false} WireConcat(a: seq<Packet>, b: seq<Packet>)
    ensures Frames(a + b) == Frames(a) + Frames(b) && Credits(a + b) == Credits(a) + Credits(b)
    decreases |b|
  {
    if b == [] { assert a + b == a; }
    else {
      assert (a + b)[..|a + b| - 1] == a + b[..|b| - 1];
      WireConcat(a, b[..|b| - 1]);
    }
  }

  lemma SplitAt<T>(s: seq<T>, k: nat)
    requires k < |s|
    ensures s == s[..k] + [s[k]] + s[k + 1..]
    ensures multiset(s) == multiset(Remove(s, k)) + multiset{s[k]}
  {
    assert s == s[..k] + [s[k]] + s[k + 1..];
  }

  lemma BytesRemove(s: seq<Payload>, k: nat)
    requires k < |s|
    ensures Bytes(s) == Bytes(Remove(s, k)) + |s[k]|
    ensures multiset(s) == multiset(Remove(s, k)) + multiset{s[k]}
  {
    SplitAt(s, k);
    BytesConcat(s[..k] + [s[k]], s[k + 1..]);
    BytesConcat(s[..k], [s[k]]);
    BytesConcat(s[..k], s[k + 1..]);
    BytesOne(s[k]);
  }

  lemma BytesOne(f: Payload)
    ensures Bytes([f]) == |f|
  {
    assert [f][..0] == [];
  }

  lemma SumRemove(s: seq<int>, k: nat)
    requires k < |s|
    ensures Sum(s) == Sum(Remove(s, k)) + s[k]
  {
    SplitAt(s, k);
    SumConcat(s[..k] + [s[k]], s[k + 1..]);
    SumConcat(s[..k], [s[k]]);
    SumConcat(s[..k], s[k + 1..]);
    SumOne(s[k]);
  }

  lemma SumOne(g: int)
    ensures Sum([g]) == g
  {
    assert [g][..0] == [];
  }

  lemma WireOne(p: Packet)
    ensures Frames([p]) == (if p.Data? then [p.frame] else [])
    ensures Credits([p]) == (if p.Credit? then [p.bytes] else [])
  {
    assert [p][..0] == [];
  }

  lemma DataRemove(a: seq<Packet>, p: Packet, b: seq<Packet>)
    requires p.Data?
    ensures Bytes(Frames(a + [p] + b)) == Bytes(Frames(a + b)) + |p.frame|
    ensures multiset(Frames(a + [p] + b)) == multiset(Frames(a + b)) + multiset{p.frame}
    ensures Credits(a + [p] + b) == Credits(a + b)
  {
    hide Frames, Credits, Bytes;
    WireConcat(a + [p], b);
    WireConcat(a, [p]);
    WireConcat(a, b);
    WireOne(p);
    BytesConcat(Frames(a) + [p.frame], Frames(b));
    BytesConcat(Frames(a), [p.frame]);
    BytesConcat(Frames(a), Frames(b));
    BytesOne(p.frame);
  }

  lemma CreditRemove(a: seq<Packet>, p: Packet, b: seq<Packet>)
    requires p.Credit?
    ensures Sum(Credits(a + [p] + b)) == Sum(Credits(a + b)) + p.bytes
    ensures Frames(a + [p] + b) == Frames(a + b)
  {
    hide Frames, Credits, Sum;
    WireConcat(a + [p], b);
    WireConcat(a, [p]);
    WireConcat(a, b);
    WireOne(p);
    SumConcat(Credits(a) + [p.bytes], Credits(b));
    SumConcat(Credits(a), [p.bytes]);
    SumConcat(Credits(a), Credits(b));
    SumOne(p.bytes);
  }

  lemma WireRemove(w: seq<Packet>, k: nat)
    requires k < |w|
    ensures w[k].Data? ==>
              && Bytes(Frames(w)) == Bytes(Frames(Remove(w, k))) + |w[k].frame|
              && multiset(Frames(w)) == multiset(Frames(Remove(w, k))) + multiset{w[k].frame}
              && Sum(Credits(w)) == Sum(Credits(Remove(w, k)))
    ensures w[k].Credit? ==>
              && Sum(Credits(w)) == Sum(Credits(Remove(w, k))) + w[k].bytes
              && Frames(w) == Frames(Remove(w, k))
  {
    hide Frames, Credits, Bytes, Sum;
    SplitAt(w, k);
    if w[k].Data? { DataRemove(w[..k], w[k], w[k + 1..]); }
    else { CreditRemove(w[..k], w[k], w[k + 1..]); }
  }

  lemma WirePush(w: seq<Packet>, p: Packet)
    ensures Frames(w + [p]) == Frames(w) + (if p.Data? then [p.frame] else [])
    ensures Credits(w + [p]) == Credits(w) + (if p.Credit? then [p.bytes] else [])
  {
    WireConcat(w, [p]);
    WireOne(p);
  }

  // ---------------------------------------------------------------- conservation

  predicate Positive(s: seq<int>) { forall i :: 0 <= i < |s| ==> s[i] > 0 }

  predicate PositiveCredits(wire: seq<Packet>) { forall p :: p in wire && p.Credit? ==> p.bytes > 0 }

  /** Every byte of the window granted to `a` is in exactly one place. */
  function Window(a: Side, b: Side, there: seq<Packet>, back: seq<Packet>, lost: Lost): int {
    a.conn.credit + Sum(Credits(back)) + Sum(b.owed)
    + Bytes(Frames(there)) + b.conn.pendingBytes + Bytes(b.busy) + b.conn.consumed + lost.bytes
  }

  /** The direction from `a` to `b` conserves its window. */
  predicate Balanced(a: Side, b: Side, there: seq<Packet>, back: seq<Packet>, lost: Lost) {
    && Window(a, b, there, back, lost) == (if b.conn.ready then WINDOW_BYTES else 0)
    && b.conn.pendingBytes == Bytes(b.conn.pending)
    && (b.conn.handler ==> b.conn.pending == [])
    && 0 <= a.conn.credit && 0 <= b.conn.consumed < CREDIT_BATCH && 0 <= lost.bytes
    && Positive(b.owed) && PositiveCredits(back)
  }

  /** Each frame `a` sent is in exactly one place. */
  predicate Placed(a: Side, b: Side, there: seq<Packet>, lost: Lost) {
    multiset(a.sent) == multiset(Frames(there)) + multiset(b.conn.pending) + multiset(b.busy)
                        + multiset(b.delivered) + multiset(lost.frames)
  }

  predicate Flow(a: Side, b: Side, there: seq<Packet>, back: seq<Packet>, lost: Lost) {
    Balanced(a, b, there, back, lost) && Placed(a, b, there, lost)
  }

  predicate Inv(n: Net) {
    && Flow(n.l, n.r, n.toR, n.toL, n.lostLR)
    && Flow(n.r, n.l, n.toL, n.toR, n.lostRL)
  }

  lemma {:induction false} SumNonNegative(s: seq<int>)
    requires Positive(s)
    ensures 0 <= Sum(s) && (s != [] ==> 0 < Sum(s))
    decreases |s|
  {
    if s != [] { SumNonNegative(s[..|s| - 1]); }
  }

  lemma {:induction false} CreditsPositive(wire: seq<Packet>)
    requires PositiveCredits(wire)
    ensures Positive(Credits(wire))
    decreases |wire|
  {
    if wire != [] { CreditsPositive(wire[..|wire| - 1]); }
  }

  lemma FlowNonNegative(a: Side, b: Side, there: seq<Packet>, back: seq<Packet>, lost: Lost)
    requires Flow(a, b, there, back, lost)
    ensures 0 <= Sum(Credits(back)) && 0 <= Sum(b.owed)
  {
    CreditsPositive(back);
    SumNonNegative(Credits(back));
    SumNonNegative(b.owed);
  }

  /** The early buffer has room for whatever is still in transit. */
  lemma BufferHasRoom(a: Side, b: Side, there: seq<Packet>, back: seq<Packet>, lost: Lost, k: nat)
    requires Flow(a, b, there, back, lost) && k < |there| && there[k].Data?
    ensures b.conn.pendingBytes + |there[k].frame| <= WINDOW_BYTES
  {
    FlowNonNegative(a, b, there, back, lost);
    WireRemove(there, k);
  }

  lemma TakeKeepsInv(n: Net, k: nat)
    requires Inv(n) && k < |n.toL|
    ensures Inv(TakePacket(n, k))
  {
    hide Sum, Credits, Bytes, Frames, Placed;
    WireRemove(n.toL, k);
    assert PositiveCredits(Remove(n.toL, k));
    if n.toL[k].Data? {
      var f := n.toL[k].frame;
      BytesPush(n.l.conn.pending, f);
      BytesPush(n.l.busy, f);
    }
    TakePlaces(n, k);
  }

  lemma TakePlaces(n: Net, k: nat)
    requires Inv(n) && k < |n.toL|
    ensures var t := TakePacket(n, k); Placed(t.l, t.r, t.toR, t.lostLR) && Placed(t.r, t.l, t.toL, t.lostRL)
  {
    hide Balanced, Frames, Bytes, Sum, Credits, Remove, Placed;
    WireRemove(n.toL, k);
    var l, r, lost := n.l, n.r, n.lostRL;
    var rest := Remove(n.toL, k);
    SamePlaces(n.l, n.r, n.toR, n.lostLR, TakePacket(n, k).l, n.r, n.toR, n.lostLR);
    if n.toL[k].Data? {
      var f := n.toL[k].frame;
      ToBusy(r, l, n.toL, lost, f, rest);
      ToPending(r, l, n.toL, lost, f, rest);
      ToLost(r, l, n.toL, lost, f, rest);
    } else {
      SamePlaces(r, l, n.toL, lost, r, TakePacket(n, k).l, rest, lost);
    }
  }

  lemma SamePlaces(a: Side, b: Side, there: seq<Packet>, lost: Lost, a': Side, b': Side,
      there': seq<Packet>, lost': Lost)
    requires Placed(a, b, there, lost)
    requires a'.sent == a.sent && Frames(there') == Frames(there) && lost'.frames == lost.frames
    requires b'.conn.pending == b.conn.pending && b'.busy == b.busy && b'.delivered == b.delivered
    ensures Placed(a', b', there', lost')
  {}

  lemma ToBusy(a: Side, b: Side, there: seq<Packet>, lost: Lost, f: Payload, rest: seq<Packet>)
    requires Placed(a, b, there, lost) && multiset(Frames(there)) == multiset(Frames(rest)) + multiset{f}
    ensures Placed(a, b.(busy := b.busy + [f]), rest, lost)
  {
    hide Frames;
    assert multiset(b.busy + [f]) == multiset(b.busy) + multiset{f};
  }

  lemma ToPending(a: Side, b: Side, there: seq<Packet>, lost: Lost, f: Payload, rest: seq<Packet>)
    requires Placed(a, b, there, lost) && multiset(Frames(there)) == multiset(Frames(rest)) + multiset{f}
    ensures ReceiptOf(b.conn, f) == Buffered ==> Placed(a, b.(conn := OnBinary(b.conn, f)), rest, lost)
  {
    hide Frames;
    assert multiset(b.conn.pending + [f]) == multiset(b.conn.pending) + multiset{f};
  }

  lemma ToLost(a: Side, b: Side, there: seq<Packet>, lost: Lost, f: Payload, rest: seq<Packet>)
    requires Placed(a, b, there, lost) && multiset(Frames(there)) == multiset(Frames(rest)) + multiset{f}
    ensures Placed(a, b, rest, Lose(lost, |f|, [f]))
  {
    hide Frames;
    assert multiset(lost.frames + [f]) == multiset(lost.frames) + multiset{f};
  }

  lemma FinishPlaces(n: Net, k: nat)
    requires Inv(n) && k < |n.l.busy|
    ensures var t := FinishFrame(n, k); Placed(t.l, t.r, t.toR, t.lostLR) && Placed(t.r, t.l, t.toL, t.lostRL)
  {
    hide Balanced, Frames, Bytes, Remove;
    BytesRemove(n.l.busy, k);
    var f := n.l.busy[k];
    assert multiset(n.l.delivered + [f]) == multiset(n.l.delivered) + multiset{f};
  }

  lemma BytesPush(s: seq<Payload>, f: Payload)
    ensures Bytes(s + [f]) == Bytes(s) + |f| && multiset(s + [f]) == multiset(s) + multiset{f}
  {
    BytesConcat(s, [f]);
    BytesOne(f);
  }

  lemma SumPush(s: seq<int>, g: int)
    ensures Sum(s + [g]) == Sum(s) + g
  {
    SumConcat(s, [g]);
    SumOne(g);
  }

  lemma FinishKeepsInv(n: Net, k: nat)
    requires Inv(n) && k < |n.l.busy|
    ensures Inv(FinishFrame(n, k))
  {
    hide Sum, Credits, Bytes, Frames, Placed, Remove;
    BytesRemove(n.l.busy, k);
    SumPush(n.l.owed, Account(n.l.conn, |n.l.busy[k]|).1);
    FinishPlaces(n, k);
  }

  lemma SendKeepsInv(n: Net, f: Payload, writeOk: bool)
    requires Inv(n)
    ensures Inv(SendFrame(n, f, writeOk))
  {
    hide Sum, Credits, Bytes, Frames;
    WirePush(n.toR, Data(f));
    BytesPush(Frames(n.toR), f);
    assert Credits(n.toR + [Data(f)]) == Credits(n.toR);
  }

  lemma GrantKeepsInv(n: Net, k: nat, writeOk: bool)
    requires Inv(n) && k < |n.l.owed|
    ensures Inv(GrantCredit(n, k, writeOk))
  {
    hide Sum, Credits, Bytes, Frames;
    SumRemove(n.l.owed, k);
    WirePush(n.toR, Credit(n.l.owed[k]));
    SumPush(Credits(n.toR), n.l.owed[k]);
    assert Frames(n.toR + [Credit(n.l.owed[k])]) == Frames(n.toR);
  }

  lemma NoBytes()
    ensures Bytes([]) == 0
  {}

  lemma InstallPlaces(n: Net)
    requires Inv(n)
    ensures var t := ActLeft(n, InstallHandler); Placed(t.l, t.r, t.toR, t.lostLR) && Placed(t.r, t.l, t.toL, t.lostRL)
  {
    hide Balanced, Frames, Bytes;
    var frames := Install(n.l.conn).1;
    assert multiset(n.l.busy + frames) == multiset(n.l.busy) + multiset(frames);
  }

  lemma InstallKeepsInv(n: Net)
    requires Inv(n)
    ensures Inv(ActLeft(n, InstallHandler))
  {
    hide Sum, Credits, Frames, Placed, Bytes;
    BytesConcat(n.l.busy, Install(n.l.conn).1);
    assert Bytes([]) == 0 by { NoBytes(); }
    InstallPlaces(n);
  }

  lemma ActKeepsInv(n: Net, a: Act)
    requires Inv(n)
    ensures Inv(ActLeft(n, a))
  {
    hide Sum, Credits, Frames, Bytes, TakePacket, FinishFrame, SendFrame, GrantCredit;
    match a {
      case Ready => SumPush(n.l.owed, WINDOW_BYTES);
      case Grant(k, writeOk) => if k < |n.l.owed| { GrantKeepsInv(n, k, writeOk); }
      case Send(f, writeOk) => SendKeepsInv(n, f, writeOk);
      case Take(k) => if k < |n.toL| { TakeKeepsInv(n, k); }
      case InstallHandler => InstallKeepsInv(n);
      case Finish(k) => if k < |n.l.busy| { FinishKeepsInv(n, k); }
      case Shut =>
    }
  }

  lemma {:induction false} ReachableKeepsInv(es: seq<Event>)
    ensures Inv(Exec(es))
    decreases |es|
  {
    hide ActLeft, Flow;
    if es == [] {
      FreshInv();
    } else {
      ReachableKeepsInv(es[..|es| - 1]);
      var n, e := Exec(es[..|es| - 1]), es[|es| - 1];
      ActKeepsInv(if e.AtLeft? then n else Mirror(n), e.act);
    }
  }

  lemma FreshInv()
    ensures Inv(FreshNet)
  {}
}
