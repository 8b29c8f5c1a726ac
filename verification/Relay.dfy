/** The credit-gated relay connection: what one end does, critical section by critical section,
    and the class that does it in place. */
module Relay {
  import opened Wire

  type Payload = seq<byte>

  const WINDOW_BYTES: int := 1024 * 1024
  const CREDIT_BATCH: int := WINDOW_BYTES / 2

  /** The fields of one end. `handler` says whether a consumer is installed. */
  datatype End = End(
    optedIn: bool, ready: bool, closed: bool,
    credit: int, consumed: int,
    handler: bool, pending: seq<Payload>, pendingBytes: int)

  const FreshEnd: End := End(false, false, false, 0, 0, false, [], 0)

  // ---------------------------------------------------------------- critical sections

  /** `relay_ready`: only the first one grants the window to the peer. */
  function OnReady(c: End): (End, int) {
    if c.ready then (c, 0) else (c.(ready := true), WINDOW_BYTES)
  }

  function OnCredit(c: End, bytes: int): End {
    if bytes <= 0 then c else c.(credit := c.credit + bytes)
  }

  datatype SendResult = Waits | Closed | Sends

  function SendStatus(c: End, size: nat): SendResult {
    if c.closed then Closed else if !c.ready || c.credit < size then Waits else Sends
  }

  function Spend(c: End, size: nat): End {
    if SendStatus(c, size) == Sends then c.(credit := c.credit - size) else c
  }

  datatype Receipt = Discarded | Buffered | Delivered

  function ReceiptOf(c: End, frame: Payload): Receipt {
    if c.closed then Discarded
    else if c.handler then Delivered
    else if c.pendingBytes + |frame| <= WINDOW_BYTES then Buffered
    else Discarded
  }

  function OnBinary(c: End, frame: Payload): End {
    if ReceiptOf(c, frame) == Buffered
    then c.(pending := c.pending + [frame], pendingBytes := c.pendingBytes + |frame|)
    else c
  }

  /** Installing the consumer takes over the early buffer. */
  function Install(c: End): (End, seq<Payload>) {
    if c.handler then (c, []) else (c.(handler := true, pending := [], pendingBytes := 0), c.pending)
  }

  /** Accounting for one consumed frame: the residue is granted back once it fills a batch. */
  function Account(c: End, size: nat): (End, int) {
    if c.consumed + size >= CREDIT_BATCH then (c.(consumed := 0), c.consumed + size)
    else (c.(consumed := c.consumed + size), 0)
  }

  /** Accounting for a list of frames, one after the other: the grants in order. */
  function AccountAll(c: End, frames: seq<Payload>): (End, seq<int>) {
    if frames == [] then (c, [])
    else
      var (c1, grants) := AccountAll(c, frames[..|frames| - 1]);
      var (c2, grant) := Account(c1, |frames[|frames| - 1]|);
      (c2, if grant > 0 then grants + [grant] else grants)
  }

  function Bytes(frames: seq<Payload>): nat {
    if frames == [] then 0 else Bytes(frames[..|frames| - 1]) + |frames[|frames| - 1]|
  }

  function Sum(grants: seq<int>): int {
    if grants == [] then 0 else Sum(grants[..|grants| - 1]) + grants[|grants| - 1]
  }

  /** Whatever the consumer handles is either granted back or kept as residue below one batch. */
  lemma {:induction false} AccountingConserves(c: End, frames: seq<Payload>)
    requires 0 <= c.consumed < CREDIT_BATCH
    ensures var (d, grants) := AccountAll(c, frames);
            && 0 <= d.consumed < CREDIT_BATCH
            && d == c.(consumed := d.consumed)
            && Sum(grants) + d.consumed == c.consumed + Bytes(frames)
            && (forall g :: g in grants ==> g >= CREDIT_BATCH)
    decreases |frames|
  {
    if frames != [] {
      AccountingConserves(c, frames[..|frames| - 1]);
      var (c1, grants) := AccountAll(c, frames[..|frames| - 1]);
      var (c2, grant) := Account(c1, |frames[|frames| - 1]|);
      assert (grants + [grant])[..|grants|] == grants;
    }
  }

  // ---------------------------------------------------------------- the connection object

  /** One end of a relay path. What a method hands to the signaling channel or to the
      consumer is returned to the caller. */
  class Conn {
    var optedIn: bool
    var ready: bool
    var closed: bool
    var credit: int
    var consumed: int
    var handler: bool
    var pending: seq<Payload>
    var pendingBytes: int

    function View(): End
      reads this
    {
      End(optedIn, ready, closed, credit, consumed, handler, pending, pendingBytes)
    }

    constructor ()
      ensures View() == FreshEnd
    {
      optedIn, ready, closed, credit, consumed := false, false, false, 0, 0;
      handler, pending, pendingBytes := false, [], 0;
    }

    /** The opt-in is recorded only once the opt-in frame went out. */
    method Open(sendOk: bool) returns (ok: bool)
      modifies this
      ensures ok == (!old(closed) && (old(optedIn) || sendOk))
      ensures View() == if ok then old(View()).(optedIn := true) else old(View())
    {
      if closed { return false; }
      if optedIn { return true; }
      if !sendOk { return false; }
      optedIn := true;
      ok := true;
    }

    method HandleReady() returns (grant: int)
      modifies this
      ensures (View(), grant) == OnReady(old(View()))
    {
      grant := 0;
      if !ready {
        ready := true;
        grant := WINDOW_BYTES;
      }
    }

    method HandleCredit(bytes: int)
      modifies this
      ensures View() == OnCredit(old(View()), bytes)
    {
      if bytes > 0 { credit := credit + bytes; }
    }

    /** One pass of the waiting loop in Send. */
    method TrySend(frame: Payload) returns (result: SendResult)
      modifies this
      ensures result == SendStatus(old(View()), |frame|) && View() == Spend(old(View()), |frame|)
    {
      if closed { return Closed; }
      if !ready || credit < |frame| { return Waits; }
      credit := credit - |frame|;
      result := Sends;
    }

    method HandleBinary(frame: Payload) returns (receipt: Receipt)
      modifies this
      ensures receipt == ReceiptOf(old(View()), frame) && View() == OnBinary(old(View()), frame)
    {
      if closed { return Discarded; }
      if !handler {
        if pendingBytes + |frame| <= WINDOW_BYTES {
          pending := pending + [frame];
          pendingBytes := pendingBytes + |frame|;
          return Buffered;
        }
        return Discarded;
      }
      receipt := Delivered;
    }

    method Consume(frame: Payload) returns (grant: int)
      modifies this
      ensures (View(), grant) == Account(old(View()), |frame|)
    {
      consumed := consumed + |frame|;
      grant := 0;
      if consumed >= CREDIT_BATCH {
        grant := consumed;
        consumed := 0;
      }
    }

    /** Installs the consumer and feeds it the early buffer. */
    method OnData() returns (delivered: seq<Payload>, grants: seq<int>)
      modifies this
      ensures delivered == Install(old(View())).1
      ensures (View(), grants) == AccountAll(Install(old(View())).0, delivered)
    {
      grants := [];
      if handler { return [], []; }
      handler := true;
      delivered := pending;
      pending := [];
      pendingBytes := 0;
      ghost var start := View();
      var i := 0;
      while i < |delivered|
        invariant 0 <= i <= |delivered|
        invariant (View(), grants) == AccountAll(start, delivered[..i])
      {
        var grant := Consume(delivered[i]);
        if grant > 0 { grants := grants + [grant]; }
        assert delivered[..i + 1][..i] == delivered[..i];
        i := i + 1;
      }
      assert delivered[..i] == delivered;
    }

    method Close()
      modifies this
      ensures View() == old(View()).(closed := true)
    {
      closed := true;
    }
  }
}
