/** The sender object: the window, the tallies, the plan and the position of `Run`, updated in
    place between two points where the code releases its lock. Every method does to the object
    what the state machine does to its value. */
module SenderObject {
  import opened Wire
  import opened Geometry
  import M = SenderModel

  class Sender {
    const c: M.Config
    var pc: M.Pc
    var win: M.Window
    var tally: M.Tally
    var plan: M.Plan
    var link: Link
    var manifestSent: bool
    var completeSent: bool
    var paused: bool
    var outcome: Outcome

    ghost function View(): M.State
      reads this
    {
      M.State(pc, win, tally, plan, link, manifestSent, completeSent, paused, outcome)
    }

    constructor (config: M.Config)
      requires M.ConfigOk(config)
      ensures c == config && View() == M.Init()
    {
      c := config;
      pc, win, tally := M.Begin, M.Window(map[], [], {}), M.Tally(-1, 0, 0);
      plan, link := M.Plan(map[], None), FreshLink;
      manifestSent, completeSent, paused, outcome := false, false, false, Running;
    }

    method Push(m: Msg)
      modifies this`link
      ensures View() == M.Push(old(View()), m)
    {
      link := SealNext(link, m);
    }

    method SettleFailed(reason: Reason)
      modifies this`outcome
      ensures View() == M.SettleFailed(old(View()), reason)
    {
      if outcome == Running { outcome := Failed(reason); }
    }

    // -------------------------------------------------------------- Run

    method ActivateFile(f: nat)
      requires M.ValidFile(c, f)
      modifies this`pc, this`tally
      ensures View() == M.ActivateFile(c, old(View()), f)
    {
      var e := c.manifest.files[f];
      var have := if f in plan.have then plan.have[f] else 0;
      var committed := if have >= e.blocks then e.size else have * e.blockSize;
      tally := M.Tally(f, tally.acknowledged + committed, committed);
      pc := M.Loop(0);
    }

    method PopRetry(next: nat)
      requires win.queue != []
      modifies this`win, this`pc
      ensures View() == M.PopRetry(old(View()), next)
    {
      var idx := win.queue[0];
      win := win.(queue := win.queue[1..]);
      win := win.(queued := win.queued - {idx});
      if idx in win.inflight { pc := M.Retrying(idx, next); }
    }

    /** One pass of the sending loop: skip, wait, retry, admit or leave the file. */
    method LoopStep(next: nat)
      requires M.ValidFile(c, tally.active)
      modifies this`win, this`pc
      ensures View() == M.LoopStep(c, old(View()), next)
    {
      hide M.Pieces, M.PopRetry;
      var f := tally.active;
      if next < M.Pieces(c, f) && next < M.Have(plan, f) {
        pc := M.Loop(next + 1);
      } else if outcome != Running {
        pc := M.Returned(false);
      } else if paused {
      } else if win.queue != [] {
        PopRetry(next);
      } else if next < M.Pieces(c, f) {
        if |win.inflight| < c.window { pc := M.Admitted(next); }
      } else if win.inflight == map[] {
        pc := M.Activate(f + 1);
      }
    }

    method AdmitBlock(next: nat)
      requires M.ValidFile(c, tally.active)
      modifies this`win, this`pc
      ensures View() == M.AdmitBlock(c, old(View()), next)
    {
      if outcome != Running {
        pc := M.Returned(false);
        return;
      }
      var piece := M.Piece(c, tally.active, next);
      win := win.(inflight := win.inflight[next := M.Inflight(piece, 0)]);
      pc := M.Sending(next, piece, 0, next + 1);
    }

    method Resend(block: int, next: nat)
      modifies this`win, this`pc, this`link, this`outcome
      ensures View() == M.Resend(c, old(View()), block, next)
    {
      if block !in win.inflight {
        pc := M.Loop(next);
        return;
      }
      var entry := win.inflight[block];
      if entry.retries >= c.maxRetries {
        Push(Fail(RetryExhausted));
        SettleFailed(RetryExhausted);
        pc := M.Returned(false);
        return;
      }
      win := win.(inflight := win.inflight[block := entry.(retries := entry.retries + 1)]);
      pc := M.Sending(block, entry.bytes, 0, next);
    }

    /** Seals the next frame of the block in progress, or its hash. */
    method SendStep(sendOk: bool)
      requires pc.Sending? && 0 < c.frameSize
      modifies this`pc, this`link, this`outcome
      ensures View() == M.SendStep(c, old(View()), sendOk)
    {
      hide M.Fragment;
      var block, bytes, off, next := pc.block, pc.bytes, pc.off, pc.next;
      if tally.active < 0 || block < 0 { return; }
      if off < |bytes| {
        var m := M.Fragment(c, tally.active, block, bytes, off);
        if |m.payload| > MAX_FRAME_PAYLOAD {
          SettleFailed(Other);
          pc := M.Returned(false);
          return;
        }
        Push(m);
        if !sendOk {
          SettleFailed(Other);
          pc := M.Returned(false);
          return;
        }
        pc := M.Sending(block, bytes, M.Min(off + c.frameSize, |bytes|), next);
      } else {
        Push(BlockHash(tally.active, block, Sha(bytes)));
        if !sendOk {
          SettleFailed(Other);
          pc := M.Returned(false);
          return;
        }
        pc := M.Loop(next);
      }
    }

    method Announce(m: Msg, then_: M.Pc, sendOk: bool)
      modifies this`pc, this`link, this`outcome
      ensures View() == if sendOk then M.Push(old(View()), m).(pc := then_)
                        else M.SettleFailed(M.Push(old(View()), m), Other).(pc := M.Returned(false))
    {
      Push(m);
      if sendOk {
        pc := then_;
      } else {
        SettleFailed(Other);
        pc := M.Returned(false);
      }
    }

    /** `Run`, from one point where it may be interrupted to the next. */
    method Advance(sendOk: bool)
      requires M.ConfigOk(c)
      modifies this
      ensures View() == M.RunStep(c, old(View()), sendOk)
    {
      hide M.ActivateFile, M.LoopStep, M.AdmitBlock, M.Resend, M.SendStep, CompletionDigest;
      match pc {
        case Begin =>
          manifestSent := true;
          Announce(ManifestMsg(c.manifest), if c.manifest.transferId != [] then M.AwaitResume else M.Activate(0), sendOk);
        case AwaitResume =>
          if outcome != Running { pc := M.Returned(false); }
          else if plan.applied.Some? { pc := M.Activate(0); }
        case Activate(f) =>
          if f < |c.manifest.files| {
            ActivateFile(f);
          } else {
            completeSent := true;
            Announce(Complete(CompletionDigest(c.manifest.files)), M.WaitDone, sendOk);
          }
        case Loop(next) => if M.ValidFile(c, tally.active) { LoopStep(next); }
        case Admitted(next) => if M.ValidFile(c, tally.active) { AdmitBlock(next); }
        case Retrying(block, next) => Resend(block, next);
        case Sending(_, _, _, _) => SendStep(sendOk);
        case WaitDone => if outcome != Running { pc := M.Returned(outcome == Succeeded); }
        case Returned(_) =>
      }
    }

    // -------------------------------------------------------------- inbound

    method OnAck(file: int, block: int)
      modifies this`win, this`tally, this`outcome
      ensures View() == M.OnAck(old(View()), file, block)
    {
      if file < tally.active { return; }
      if file != tally.active {
        SettleFailed(Integrity);
        return;
      }
      if block !in win.inflight { return; }
      var n := |win.inflight[block].bytes|;
      win := win.(inflight := win.inflight - {block});
      win := win.(queued := win.queued - {block});
      tally := tally.(acknowledged := tally.acknowledged + n);
      tally := tally.(fileAcknowledged := tally.fileAcknowledged + n);
    }

    method QueueRetry(block: int)
      modifies this`win
      ensures View() == M.QueueRetry(old(View()), block)
    {
      if block !in win.inflight || block in win.queued || outcome != Running { return; }
      win := win.(queued := win.queued + {block});
      win := win.(queue := win.queue + [block]);
    }

    method OnNack(file: int, block: int)
      modifies this`win, this`outcome
      ensures View() == M.OnNack(old(View()), file, block)
    {
      if file < tally.active { return; }
      if file != tally.active {
        SettleFailed(Integrity);
        return;
      }
      QueueRetry(block);
    }

    /** Reads a plan off a resume_state without touching the one in force. */
    method BuildPlan(m: ResumeState) returns (have: Option<map<int, int>>)
      ensures have == M.BuildPlan(c, View(), m)
    {
      if c.manifest.transferId == [] || !manifestSent { return None; }
      if m.transferId != c.manifest.transferId { return None; }
      if m.fingerprint.Some? && m.fingerprint.value != Fingerprint(c.manifest) { return None; }
      if plan.applied.Some? {
        return if m == plan.applied.value then Some(plan.have) else None;
      }
      var files, marks, p: map<int, int> := c.manifest.files, m.files, map[];
      var i := 0;
      while i < |marks|
        invariant 0 <= i <= |marks| && M.ScanMarks(files, marks, i) == Some(p)
        invariant forall k :: i <= k <= |marks| ==> (M.ScanMarks(files, marks, k).Some? ==> M.ScanMarks(files, marks, i).Some?)
      {
        var mark := marks[i];
        if mark.idx < 0 || mark.idx >= |files| || mark.idx in p
           || mark.haveBlocks < 0 || mark.haveBlocks > files[mark.idx].blocks {
          RefusedStays(files, marks, i + 1, |marks|);
          return None;
        }
        p := p[mark.idx := mark.haveBlocks];
        i := i + 1;
      }
      have := if |p| != |files| then None else Some(p);
    }

    method OnResumeState(m: ResumeState)
      modifies this`plan, this`outcome
      ensures View() == M.OnResumeState(c, old(View()), m)
    {
      hide M.BuildPlan;
      var have := BuildPlan(m);
      if have == None { SettleFailed(Integrity); } else { plan := M.Plan(have.value, Some(m)); }
    }

    method Handle(frame: Frame)
      modifies this
      ensures View() == M.Handle(c, old(View()), frame)
    {
      hide M.OnAck, M.OnNack, M.OnResumeState;
      if outcome != Running { return; }
      if frame.Forged? {
        if frame.claimed >= link.recvCounter { SettleFailed(Integrity); }
        return;
      }
      if frame.counter < link.recvCounter { return; }
      link := link.(recvCounter := frame.counter + 1, accepted := link.accepted + [frame.counter]);
      match frame.msg {
        case Ack(file, block) => OnAck(file, block);
        case Nack(file, block) => OnNack(file, block);
        case ResumeMsg(rs) => OnResumeState(rs);
        case ControlMsg(op) =>
          match op {
            case Pause => paused := true;
            case Resume => paused := false;
            case Cancel => SettleFailed(Canceled);
          }
        case Done => if completeSent { outcome := Succeeded; } else { SettleFailed(Integrity); }
        case Fail(reason) => SettleFailed(reason);
        case _ => SettleFailed(Integrity);
      }
    }

    // -------------------------------------------------------------- path changes

    /** Every unacknowledged block gets a fresh retry budget and a place in the queue; the map
        may be walked in any order. */
    method RequeueAll() returns (order: seq<int>)
      requires win.queued <= win.inflight.Keys
      modifies this`win
      ensures M.Enumerates(order, old(win).inflight.Keys - old(win).queued)
      ensures win == M.Window(M.ResetRetries(old(win).inflight), old(win).queue + order,
                              old(win).inflight.Keys + old(win).queued)
    {
      ghost var was := win.inflight;
      ghost var had := win.queued;
      var inflight, queued := win.inflight, win.queued;
      var todo := win.inflight.Items;
      order := [];
      while todo != {}
        invariant forall kv :: kv in todo ==> kv.0 in was && kv.1 == was[kv.0]
        invariant inflight.Keys == was.Keys
        invariant forall b :: b in was ==> inflight[b] == (if (b, was[b]) in todo then was[b] else was[b].(retries := 0))
        invariant M.NoDup(order) && (forall b :: b in order <==> b in was && b !in had && (b, was[b]) !in todo)
        invariant forall b :: b in queued <==> b in had || b in order
        decreases |todo|
      {
        var kv :| kv in todo;
        var b := kv.0;
        inflight := inflight[b := M.Inflight(kv.1.bytes, 0)];
        if b !in queued {
          order := order + [b];
          queued := queued + {b};
        }
        todo := todo - {kv};
      }
      ResetIs(was, inflight);
      assert forall b :: b in queued <==> b in was.Keys + had;
      win := M.Window(inflight, win.queue + order, queued);
    }

    method TransportChanged() returns (order: seq<int>)
      requires win.queued <= win.inflight.Keys
      modifies this
      ensures View() == M.TransportChanged(c, old(View()), order)
    {
      hide CompletionDigest;
      order := [];
      if outcome != Running { return; }
      order := RequeueAll();
      if manifestSent && tally.acknowledged == 0 { Push(ManifestMsg(c.manifest)); }
      if completeSent { Push(Complete(CompletionDigest(c.manifest.files))); }
    }

    method RetransmitComplete()
      modifies this`link
      ensures View() == M.RetransmitComplete(c, old(View()))
    {
      if outcome != Running || !completeSent { return; }
      Push(Complete(CompletionDigest(c.manifest.files)));
    }

    method SetPaused(pause: bool)
      modifies this`paused, this`link
      ensures View() == M.SetPaused(old(View()), pause)
    {
      if outcome != Running || paused == pause { return; }
      paused := pause;
      Push(ControlMsg(if pause then Pause else Resume));
    }

    method CancelLocally()
      modifies this`link, this`outcome
      ensures View() == M.CancelLocally(old(View()))
    {
      if outcome != Running { return; }
      Push(ControlMsg(Cancel));
      SettleFailed(Canceled);
    }
  }

  lemma ResetIs(was: map<int, M.Inflight>, now: map<int, M.Inflight>)
    requires now.Keys == was.Keys && forall b :: b in was ==> now[b] == was[b].(retries := 0)
    ensures now == M.ResetRetries(was)
  {
    var r := M.ResetRetries(was);
    assert forall b :: b in now <==> b in r;
    assert forall b :: b in r ==> now[b] == r[b];
  }

  /** Once a mark is refused the whole message is. */
  lemma {:induction false} RefusedStays(files: seq<FileEntry>, marks: seq<ResumeFileState>, i: nat, k: nat)
    requires i <= k <= |marks| && M.ScanMarks(files, marks, i) == None
    ensures M.ScanMarks(files, marks, k) == None
  {
    if i < k { RefusedStays(files, marks, i, k - 1); }
  }
}
