/** The sending engine as a state machine. `Run` is one goroutine whose position is `pc`;
    inbound messages, ack timeouts, path changes, pauses and cancellation are events that may
    fall between any two of its steps. */
module SenderModel {
  import opened Wire
  import opened Geometry

  /** What a send is about: the validated manifest and the bytes the second pass over each
      source yields, which may differ from the bytes the manifest's digest covers. */
  datatype Config = Config(
    manifest: Manifest,
    streams: seq<seq<byte>>,
    frameSize: int,
    window: int,
    maxRetries: int)

  datatype Inflight = Inflight(bytes: seq<byte>, retries: int)

  /** The unacknowledged blocks, the retry queue and the set of blocks marked as queued. */
  datatype Window = Window(inflight: map<int, Inflight>, queue: seq<int>, queued: set<int>)

  datatype Tally = Tally(active: int, acknowledged: int, fileAcknowledged: int)

  /** The resume plan and the message it came from. */
  datatype Plan = Plan(have: map<int, int>, applied: Option<ResumeState>)

  /** Where `Run` stands. `next` is the next piece of the active file to be considered;
      once it has passed the last piece, the loop waits for the window to drain. */
  datatype Pc =
    | Begin
    | AwaitResume
    | Activate(file: nat)
    | Loop(next: nat)
    | Admitted(next: nat)
    | Retrying(block: int, next: nat)
    | Sending(block: int, bytes: seq<byte>, off: nat, next: nat)
    | WaitDone
    | Returned(ok: bool)

  datatype State = State(
    pc: Pc, win: Window, tally: Tally, plan: Plan, link: Link,
    manifestSent: bool, completeSent: bool, paused: bool, outcome: Outcome)

  function Init(): State {
    State(Begin, Window(map[], [], {}), Tally(-1, 0, 0), Plan(map[], None), FreshLink,
          false, false, false, Running)
  }

  predicate ConfigOk(c: Config) {
    && 0 < |c.manifest.files| == |c.streams|
    && (forall i :: 0 <= i < |c.manifest.files| ==> Shaped(c.manifest.files[i]) && c.manifest.files[i].idx == i)
    && 0 < c.frameSize && 0 < c.window && 0 < c.maxRetries
  }

  predicate ValidFile(c: Config, f: int) {
    0 <= f < |c.manifest.files| == |c.streams| && Shaped(c.manifest.files[f])
  }

  /** Block `b` of what the source streams, and how many such pieces there are. */
  function Piece(c: Config, f: int, b: nat): seq<byte>
    requires ValidFile(c, f)
  {
    BlockOf(c.streams[f], c.manifest.files[f].blockSize, b)
  }

  function Pieces(c: Config, f: int): nat
    requires ValidFile(c, f)
  {
    Blocks(|c.streams[f]|, c.manifest.files[f].blockSize)
  }

  function Have(p: Plan, f: int): int { if f in p.have then p.have[f] else 0 }

  function Push(s: State, m: Msg): State { s.(link := SealNext(s.link, m)) }

  function SettleFailed(s: State, reason: Reason): State {
    if s.outcome != Running then s else s.(outcome := Failed(reason))
  }

  // ---------------------------------------------------------------- the Run goroutine

  /** Nothing `Run` does touches the plan, the counters it accepts, or turns a settled sender
      into a successful one. */
  predicate Steady(s: State, t: State) {
    && t.plan == s.plan && SealsMore(s.link, t.link)
    && (t.outcome == s.outcome || (s.outcome == Running && t.outcome.Failed?))
  }

  predicate SameFlags(s: State, t: State) { t.manifestSent == s.manifestSent && t.completeSent == s.completeSent }

  function ActivateFile(c: Config, s: State, f: nat): (t: State)
    requires ValidFile(c, f)
    ensures Steady(s, t) && t.win == s.win
  {
    var committed := Committed(c.manifest.files[f], Have(s.plan, f));
    s.(pc := Loop(0), tally := Tally(f, s.tally.acknowledged + committed, committed))
  }

  function PopRetry(s: State, next: nat): (t: State)
    requires s.win.queue != []
    ensures t.win.inflight == s.win.inflight && Steady(s, t) && SameFlags(s, t)
  {
    var idx := s.win.queue[0];
    var s' := s.(win := s.win.(queue := s.win.queue[1..], queued := s.win.queued - {idx}));
    if idx in s.win.inflight then s'.(pc := Retrying(idx, next)) else s'
  }

  function LoopStep(c: Config, s: State, next: nat): (t: State)
    requires ValidFile(c, s.tally.active)
    ensures t.win.inflight == s.win.inflight && t.tally == s.tally && Steady(s, t) && SameFlags(s, t)
  {
    var f := s.tally.active;
    if next < Pieces(c, f) && next < Have(s.plan, f) then s.(pc := Loop(next + 1))
    else if s.outcome != Running then s.(pc := Returned(false))
    else if s.paused then s
    else if s.win.queue != [] then PopRetry(s, next)
    else if next < Pieces(c, f) then
      if |s.win.inflight| < c.window then s.(pc := Admitted(next)) else s
    else if s.win.inflight == map[] then s.(pc := Activate(f + 1)) else s
  }

  function AdmitBlock(c: Config, s: State, next: nat): (t: State)
    requires ValidFile(c, s.tally.active)
    ensures t.tally == s.tally && Steady(s, t) && SameFlags(s, t)
  {
    if s.outcome != Running then s.(pc := Returned(false))
    else
      var piece := Piece(c, s.tally.active, next);
      s.(win := s.win.(inflight := s.win.inflight[next := Inflight(piece, 0)]),
         pc := Sending(next, piece, 0, next + 1))
  }

  function Resend(c: Config, s: State, block: int, next: nat): (t: State)
    ensures t.tally == s.tally && t.win.inflight.Keys == s.win.inflight.Keys && Steady(s, t) && SameFlags(s, t)
    ensures t.pc.Returned? || (t.pc.Loop? && t.pc.next == next) || (t.pc.Sending? && t.pc.next == next)
  {
    if block !in s.win.inflight then s.(pc := Loop(next))
    else
      var entry := s.win.inflight[block];
      if entry.retries >= c.maxRetries then
        SettleFailed(Push(s, Fail(RetryExhausted)), RetryExhausted).(pc := Returned(false))
      else
        s.(win := s.win.(inflight := s.win.inflight[block := entry.(retries := entry.retries + 1)]),
           pc := Sending(block, entry.bytes, 0, next))
  }

  function Min(a: int, b: int): int { if a < b then a else b }

  /** One frame of a block; the header fields are the casts to 16 and 32 bits of the code. */
  function Fragment(c: Config, f: nat, block: nat, bytes: seq<byte>, off: nat): (m: Msg)
    requires off < |bytes| && 0 < c.frameSize
    ensures m.BlockData?
  {
    BlockData(f % 0x1_0000, block % 0x1_0000_0000, off % 0x1_0000_0000, bytes[off..Min(off + c.frameSize, |bytes|)])
  }

  function SendStep(c: Config, s: State, sendOk: bool): (t: State)
    requires s.pc.Sending? && 0 < c.frameSize
    ensures t.tally == s.tally && t.win == s.win && Steady(s, t) && SameFlags(s, t)
    ensures t.pc.Returned? || ((t.pc.Loop? || t.pc.Sending?) && t.pc.next == s.pc.next)
  {
    var Sending(block, bytes, off, next) := s.pc;
    if s.tally.active < 0 || block < 0 then s
    else if off < |bytes| then
      var m := Fragment(c, s.tally.active, block, bytes, off);
      if |m.payload| > MAX_FRAME_PAYLOAD then SettleFailed(s, Other).(pc := Returned(false))
      else if !sendOk then SettleFailed(Push(s, m), Other).(pc := Returned(false))
      else Push(s, m).(pc := Sending(block, bytes, Min(off + c.frameSize, |bytes|), next))
    else
      var s' := Push(s, BlockHash(s.tally.active, block, Sha(bytes)));
      if !sendOk then SettleFailed(s', Other).(pc := Returned(false)) else s'.(pc := Loop(next))
  }

  function RunStep(c: Config, s: State, sendOk: bool): (t: State)
    requires ConfigOk(c)
    ensures Steady(s, t)
  {
    match s.pc
    case Begin =>
      var s' := Push(s.(manifestSent := true), ManifestMsg(c.manifest));
      if !sendOk then SettleFailed(s', Other).(pc := Returned(false))
      else s'.(pc := if c.manifest.transferId != [] then AwaitResume else Activate(0))
    case AwaitResume =>
      if s.outcome != Running then s.(pc := Returned(false))
      else if s.plan.applied.Some? then s.(pc := Activate(0)) else s
    case Activate(f) =>
      if f < |c.manifest.files| then ActivateFile(c, s, f)
      else
        var s' := Push(s.(completeSent := true), Complete(CompletionDigest(c.manifest.files)));
        if !sendOk then SettleFailed(s', Other).(pc := Returned(false)) else s'.(pc := WaitDone)
    case Loop(next) => if ValidFile(c, s.tally.active) then LoopStep(c, s, next) else s
    case Admitted(next) => if ValidFile(c, s.tally.active) then AdmitBlock(c, s, next) else s
    case Retrying(block, next) => Resend(c, s, block, next)
    case Sending(_, _, _, _) => SendStep(c, s, sendOk)
    case WaitDone => if s.outcome == Running then s else s.(pc := Returned(s.outcome == Succeeded))
    case Returned(_) => s
  }

  // ---------------------------------------------------------------- inbound messages

  function OnAck(s: State, file: int, block: int): State {
    if file < s.tally.active then s
    else if file != s.tally.active then SettleFailed(s, Integrity)
    else if block !in s.win.inflight then s
    else
      var n := |s.win.inflight[block].bytes|;
      s.(win := s.win.(inflight := s.win.inflight - {block}, queued := s.win.queued - {block}),
         tally := s.tally.(acknowledged := s.tally.acknowledged + n,
                           fileAcknowledged := s.tally.fileAcknowledged + n))
  }

  function QueueRetry(s: State, block: int): State {
    if block !in s.win.inflight || block in s.win.queued || s.outcome != Running then s
    else s.(win := s.win.(queue := s.win.queue + [block], queued := s.win.queued + {block}))
  }

  function OnNack(s: State, file: int, block: int): State {
    if file < s.tally.active then s
    else if file != s.tally.active then SettleFailed(s, Integrity)
    else QueueRetry(s, block)
  }

  /** The plan read off the first `k` marks, or None at the first inadmissible mark. */
  function ScanMarks(files: seq<FileEntry>, marks: seq<ResumeFileState>, k: nat): Option<map<int, int>>
    requires k <= |marks|
  {
    if k == 0 then Some(map[])
    else
      match ScanMarks(files, marks, k - 1)
      case None => None
      case Some(plan) =>
        var mark := marks[k - 1];
        if !(0 <= mark.idx < |files|) || mark.idx in plan
           || mark.haveBlocks < 0 || mark.haveBlocks > files[mark.idx].blocks then None
        else Some(plan[mark.idx := mark.haveBlocks])
  }

  function BuildPlan(c: Config, s: State, m: ResumeState): Option<map<int, int>> {
    if c.manifest.transferId == [] || !s.manifestSent then None
    else if m.transferId != c.manifest.transferId then None
    else if m.fingerprint.Some? && m.fingerprint.value != Fingerprint(c.manifest) then None
    else if s.plan.applied.Some? then
      if m == s.plan.applied.value then Some(s.plan.have) else None
    else
      match ScanMarks(c.manifest.files, m.files, |m.files|)
      case None => None
      case Some(plan) => if |plan| != |c.manifest.files| then None else Some(plan)
  }

  function OnResumeState(c: Config, s: State, m: ResumeState): State {
    match BuildPlan(c, s, m)
    case None => SettleFailed(s, Integrity)
    case Some(plan) => s.(plan := Plan(plan, Some(m)))
  }

  function Dispatch(c: Config, s: State, m: Msg): (t: State)
    ensures t.pc == s.pc && t.link == s.link && t.manifestSent == s.manifestSent && t.completeSent == s.completeSent
    ensures !m.Ack? ==> t.tally == s.tally && t.win.inflight == s.win.inflight
    ensures !m.ResumeMsg? ==> t.plan == s.plan
    ensures t.outcome == Succeeded ==> s.outcome == Succeeded || (m.Done? && s.completeSent)
  {
    match m
    case Ack(file, block) => OnAck(s, file, block)
    case Nack(file, block) => OnNack(s, file, block)
    case ResumeMsg(rs) => OnResumeState(c, s, rs)
    case ControlMsg(op) =>
      (match op
       case Pause => s.(paused := true)
       case Resume => s.(paused := false)
       case Cancel => SettleFailed(s, Canceled))
    case Done => if s.completeSent then s.(outcome := Succeeded) else SettleFailed(s, Integrity)
    case Fail(reason) => SettleFailed(s, reason)
    case _ => SettleFailed(s, Integrity)
  }

  function Accept(s: State, counter: nat): State {
    s.(link := s.link.(recvCounter := counter + 1, accepted := s.link.accepted + [counter]))
  }

  function Handle(c: Config, s: State, frame: Frame): (t: State)
    ensures t.link.sent == s.link.sent && t.link.sealer == s.link.sealer
    ensures t.link == s.link
            || (frame.Sealed? && s.link.recvCounter <= frame.counter && t.link == Accept(s, frame.counter).link)
  {
    if s.outcome != Running then s
    else match frame
      case Forged(claimed) => if claimed < s.link.recvCounter then s else SettleFailed(s, Integrity)
      case Sealed(counter, m) =>
        if counter < s.link.recvCounter then s else Dispatch(c, Accept(s, counter), m)
  }

  // ---------------------------------------------------------------- other events

  predicate NoDup(q: seq<int>) { forall i, j :: 0 <= i < j < |q| ==> q[i] != q[j] }

  /** An iteration order over the in-flight blocks that are not queued yet. */
  predicate Enumerates(order: seq<int>, keys: set<int>) {
    NoDup(order) && (forall x :: x in order ==> x in keys) && (forall x :: x in keys ==> x in order)
  }

  function ResetRetries(inflight: map<int, Inflight>): map<int, Inflight> {
    map b | b in inflight :: inflight[b].(retries := 0)
  }

  function TransportChanged(c: Config, s: State, order: seq<int>): State {
    if s.outcome != Running || !Enumerates(order, s.win.inflight.Keys - s.win.queued) then s
    else
      var s1 := s.(win := Window(ResetRetries(s.win.inflight), s.win.queue + order, s.win.inflight.Keys + s.win.queued));
      var s2 := if s.manifestSent && s.tally.acknowledged == 0 then Push(s1, ManifestMsg(c.manifest)) else s1;
      if s.completeSent then Push(s2, Complete(CompletionDigest(c.manifest.files))) else s2
  }

  function RetransmitComplete(c: Config, s: State): State {
    if s.outcome != Running || !s.completeSent then s
    else Push(s, Complete(CompletionDigest(c.manifest.files)))
  }

  function DoneTimeout(s: State): State {
    if s.pc == WaitDone then SettleFailed(s, RetryExhausted) else s
  }

  function SourceFails(s: State): State {
    if s.pc.Loop? then SettleFailed(s, Other).(pc := Returned(false)) else s
  }

  function SetPaused(s: State, paused: bool): State {
    if s.outcome != Running || s.paused == paused then s
    else Push(s.(paused := paused), ControlMsg(if paused then Pause else Resume))
  }

  function CancelLocally(s: State): State {
    if s.outcome != Running then s
    else Push(s, ControlMsg(Cancel)).(outcome := Failed(Canceled))
  }

  /** Everything that can happen to a sender, in any order. */
  datatype Event =
    | Advance(sendOk: bool)
    | Inbound(frame: Frame)
    | AckTimeout(block: int)
    | PathChange(order: seq<int>)
    | CompleteTick
    | DoneDeadline
    | SourceError
    | PauseCall(paused: bool)
    | CancelCall

  function Apply(c: Config, s: State, e: Event): State
    requires ConfigOk(c)
  {
    match e
    case Advance(sendOk) => RunStep(c, s, sendOk)
    case Inbound(frame) => Handle(c, s, frame)
    case AckTimeout(block) => QueueRetry(s, block)
    case PathChange(order) => TransportChanged(c, s, order)
    case CompleteTick => RetransmitComplete(c, s)
    case DoneDeadline => DoneTimeout(s)
    case SourceError => SourceFails(s)
    case PauseCall(paused) => SetPaused(s, paused)
    case CancelCall => CancelLocally(s)
  }

  function Exec(c: Config, es: seq<Event>): State
    requires ConfigOk(c)
  {
    if es == [] then Init() else Apply(c, Exec(c, es[..|es| - 1]), es[|es| - 1])
  }
}
