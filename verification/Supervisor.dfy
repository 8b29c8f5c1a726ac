/** The path supervisor: candidates, the one active path, and the epoch of each switch. A
    delivery is one step together with the check that may promote its path. */
module Supervisor {
  import opened Wire

  /** Path ids are the integers the driver assigns. */
  datatype PathId = PathId(n: int)

  datatype PathState = Candidate | Warming | Ready | Active | Closed | Broken

  predicate Terminal(s: PathState) { s == Closed || s == Broken }

  /** A frame handed to a path, and whether it had waited for a first path. */
  datatype Sent = Sent(path: PathId, frame: nat, waited: bool)

  /** A frame handed to the consumer, and the path it came from. */
  datatype Delivery = Delivery(path: PathId, frame: nat)

  /** What has gone out, what has come in, and what still waits for a first path. */
  datatype Traffic = Traffic(sent: seq<Sent>, delivered: seq<Delivery>, lazy: seq<nat>)

  /** `watched` are the paths that had been registered when the consumer was installed. */
  datatype Sup = Sup(
    paths: map<PathId, PathState>, active: Option<PathId>, epoch: nat, closed: bool,
    watched: set<PathId>, traffic: Traffic)

  const Fresh: Sup := Sup(map[], None, 0, false, {}, Traffic([], [], []))

  function Register(s: Sup, id: PathId): Sup {
    if s.closed || id in s.paths then s else s.(paths := s.paths[id := Candidate])
  }

  function Transition(s: Sup, id: PathId, was: PathState, now: PathState): Sup {
    if s.closed || id !in s.paths || s.paths[id] != was then s else s.(paths := s.paths[id := now])
  }

  /** The failed path stays recorded as active if it was. */
  function FailPath(s: Sup, id: PathId): Sup {
    if id !in s.paths || Terminal(s.paths[id]) then s else s.(paths := s.paths[id := Broken])
  }

  function CloseOthers(paths: map<PathId, PathState>, id: PathId): map<PathId, PathState> {
    map k | k in paths :: if k != id && !Terminal(paths[k]) then Closed else paths[k]
  }

  function Switch(s: Sup, id: PathId): Sup {
    s.(paths := CloseOthers(s.paths[id := Active], id), active := Some(id), epoch := s.epoch + 1)
  }

  function Outgoing(id: PathId, frames: seq<nat>): seq<Sent> {
    seq(|frames|, i requires 0 <= i < |frames| => Sent(id, frames[i], true))
  }

  function Drain(s: Sup, id: PathId): Sup {
    s.(traffic := s.traffic.(sent := s.traffic.sent + Outgoing(id, s.traffic.lazy), lazy := []))
  }

  /** The epoch moves even when the path turns out not to be ready. */
  function Activate(s: Sup, id: PathId): Sup {
    if s.closed || id !in s.paths || Terminal(s.paths[id]) then s
    else if s.active == Some(id) && s.paths[id] == Active then s
    else if s.paths[id] != Ready && s.paths[id] != Active then s.(epoch := s.epoch + 1)
    else Drain(Switch(s, id), id)
  }

  /** A frame arriving on a watched path: delivered from the active path. On a ready path it
      promotes that path, without sending what waits for a first path, and is delivered twice. */
  function Data(s: Sup, id: PathId, frame: nat): Sup {
    if s.closed || id !in s.paths || id !in s.watched then s
    else if s.active == Some(id) && s.paths[id] == Active then Deliver(s, id, frame)
    else if s.paths[id] == Ready then Deliver(Deliver(Switch(s, id), id, frame), id, frame)
    else s
  }

  function Deliver(s: Sup, id: PathId, frame: nat): Sup {
    s.(traffic := s.traffic.(delivered := s.traffic.delivered + [Delivery(id, frame)]))
  }

  /** Installing the consumer hooks the paths there are. */
  function Watch(s: Sup): Sup { s.(watched := s.watched + s.paths.Keys) }

  /** One attempt to send; a path that fails the write leaves nothing behind. */
  function SendOne(s: Sup, frame: nat, writeOk: bool): Sup {
    if s.closed then s
    else if s.active == None then s.(traffic := s.traffic.(lazy := s.traffic.lazy + [frame]))
    else if writeOk then s.(traffic := s.traffic.(sent := s.traffic.sent + [Sent(s.active.value, frame, false)]))
    else s
  }

  function CloseAll(s: Sup): Sup { s.(paths := map[], active := None, closed := true) }

  datatype Event =
    | DoRegister(id: PathId) | DoWarming(id: PathId) | DoReady(id: PathId) | DoFail(id: PathId)
    | DoActivate(id: PathId) | OnFrame(id: PathId, frame: nat) | DoSend(frame: nat, writeOk: bool) | DoWatch | DoClose

  function Apply(s: Sup, e: Event): Sup {
    match e
    case DoRegister(id) => Register(s, id)
    case DoWarming(id) => Transition(s, id, Candidate, Warming)
    case DoReady(id) => Transition(s, id, Warming, Ready)
    case DoFail(id) => FailPath(s, id)
    case DoActivate(id) => Activate(s, id)
    case OnFrame(id, frame) => Data(s, id, frame)
    case DoWatch => Watch(s)
    case DoSend(frame, writeOk) => SendOne(s, frame, writeOk)
    case DoClose => if s.closed then s else CloseAll(s)
  }

  function Exec(es: seq<Event>): Sup {
    if es == [] then Fresh else Apply(Exec(es[..|es| - 1]), es[|es| - 1])
  }

  // ---------------------------------------------------------------- invariants

  /** At most one path is active, and it is the recorded one; a path that delivered and is no
      longer the recorded one can never deliver again. */
  predicate Inv(s: Sup) {
    && (forall id :: id in s.paths && s.paths[id] == Active ==> s.active == Some(id))
    && (s.active.Some? ==>
          s.active.value in s.paths && (s.paths[s.active.value] == Active || s.paths[s.active.value] == Broken))
    && (s.closed ==> s.paths == map[] && s.active == None)
    && (forall i :: 0 <= i < |s.traffic.delivered| ==>
          Spent(s, s.traffic.delivered[i].path) || s.active == Some(s.traffic.delivered[i].path))
    && (!s.closed && s.active.Some? ==>
          forall i, j :: 0 <= i < j < |s.traffic.delivered| && s.traffic.delivered[i].path == s.active.value ==>
            s.traffic.delivered[j].path == s.active.value)
    && Contiguous(s.traffic.delivered)
  }

  /** No frame from this path will be delivered any more. */
  predicate Spent(s: Sup, id: PathId) { s.closed || (id in s.paths && Terminal(s.paths[id])) }

  /** Deliveries of one path form one unbroken segment of the stream. */
  predicate Contiguous(log: seq<Delivery>) {
    forall i, j, k :: 0 <= i < j < k < |log| && log[i].path == log[k].path ==> log[j].path == log[i].path
  }

  /** Terminal paths stay terminal, the epoch never falls, and it rises when the active path
      changes to another. */
  ghost predicate Forward(s: Sup, t: Sup) {
    && s.epoch <= t.epoch
    && (t.active.Some? && t.active != s.active ==> s.epoch < t.epoch)
    && (forall id :: Spent(s, id) ==> Spent(t, id))
    && (forall id :: id in s.paths && Terminal(s.paths[id]) ==>
          t.closed || (id in t.paths && t.paths[id] == s.paths[id]))
    && (s.active.Some? ==> t.active == s.active || Spent(t, s.active.value))
    && (s.closed ==> t.closed)
    && s.traffic.delivered <= t.traffic.delivered && s.traffic.sent <= t.traffic.sent
  }

  lemma DeliverKeeps(s: Sup, id: PathId, frame: nat)
    requires Inv(s) && !s.closed && s.active == Some(id)
    requires forall i :: 0 <= i < |s.traffic.delivered| ==>
               Spent(s, s.traffic.delivered[i].path) || s.traffic.delivered[i].path == id
    requires forall i, j :: 0 <= i < j < |s.traffic.delivered| && s.traffic.delivered[i].path == id ==>
               s.traffic.delivered[j].path == id
    ensures Inv(Deliver(s, id, frame))
  {
    var log := s.traffic.delivered + [Delivery(id, frame)];
    forall i, j, k | 0 <= i < j < k < |log| && log[i].path == log[k].path ensures log[j].path == log[i].path {
      if k < |s.traffic.delivered| { assert s.traffic.delivered[j].path == s.traffic.delivered[i].path; }
    }
  }

  /** A ready path has never delivered. */
  lemma SwitchKeeps(s: Sup, id: PathId)
    requires Inv(s) && !s.closed && id in s.paths && s.paths[id] == Ready
    ensures Inv(Switch(s, id)) && Forward(s, Switch(s, id))
    ensures forall i :: 0 <= i < |s.traffic.delivered| ==> s.traffic.delivered[i].path != id
  {
    var t, log := Switch(s, id), s.traffic.delivered;
    forall i | 0 <= i < |log| ensures log[i].path != id && Spent(t, log[i].path) {
      assert Spent(s, log[i].path) || s.active == Some(log[i].path);
    }
  }

  lemma DrainKeeps(s: Sup, id: PathId)
    requires Inv(s)
    ensures Inv(Drain(s, id)) && Forward(s, Drain(s, id))
  {}

  lemma ForwardTwice(s: Sup, t: Sup, u: Sup)
    requires Forward(s, t) && Forward(t, u) && u.active == t.active
    ensures Forward(s, u)
  {}

  lemma ActivateKeeps(s: Sup, id: PathId)
    requires Inv(s)
    ensures Inv(Activate(s, id)) && Forward(s, Activate(s, id))
  {
    if !s.closed && id in s.paths && s.paths[id] == Ready {
      SwitchKeeps(s, id);
      DrainKeeps(Switch(s, id), id);
      ForwardTwice(s, Switch(s, id), Drain(Switch(s, id), id));
    }
  }

  lemma DataKeeps(s: Sup, id: PathId, frame: nat)
    requires Inv(s)
    ensures Inv(Data(s, id, frame)) && Forward(s, Data(s, id, frame))
  {
    if !s.closed && id in s.paths && id in s.watched {
      if s.paths[id] == Active {
        DeliverKeeps(s, id, frame);
      } else if s.paths[id] == Ready {
        SwitchKeeps(s, id);
        DeliverKeeps(Switch(s, id), id, frame);
        DeliverKeeps(Deliver(Switch(s, id), id, frame), id, frame);
      }
    }
  }

  lemma ApplyKeeps(s: Sup, e: Event)
    requires Inv(s)
    ensures Inv(Apply(s, e)) && Forward(s, Apply(s, e))
  {
    match e {
      case DoActivate(id) => ActivateKeeps(s, id);
      case OnFrame(id, frame) => DataKeeps(s, id, frame);
      case _ =>
    }
  }

  lemma {:induction false} ReachableKeepsInv(es: seq<Event>)
    ensures Inv(Exec(es))
    decreases |es|
  {
    hide Apply, Inv;
    if es == [] {
      FreshInv();
    } else {
      ReachableKeepsInv(es[..|es| - 1]);
      ApplyKeeps(Exec(es[..|es| - 1]), es[|es| - 1]);
    }
  }

  lemma FreshInv()
    ensures Inv(Fresh)
  {}

  // ---------------------------------------------------------------- results

  /** In every reachable state at most one path is active and it is the recorded one, and the
      frames delivered so far form one unbroken segment per path. */
  lemma OneActivePath(es: seq<Event>, a: PathId, b: PathId)
    ensures var s := Exec(es);
            && (a in s.paths && b in s.paths && s.paths[a] == Active && s.paths[b] == Active ==>
                  a == b && s.active == Some(a))
            && Contiguous(s.traffic.delivered)
  {
    hide Exec;
    ReachableKeepsInv(es);
  }

  /** Later in every run: Closed and Failed are each final for a path, closing is final for the
      supervisor, the epoch never falls and has risen if another path is active, and a path
      that was active still is or can never deliver again. */
  lemma {:induction false} RunsForward(es: seq<Event>, more: seq<Event>)
    ensures var s, t := Exec(es), Exec(es + more);
            && s.epoch <= t.epoch && (t.active.Some? && t.active != s.active ==> s.epoch < t.epoch)
            && (forall id :: id in s.paths && Terminal(s.paths[id]) ==>
                  t.closed || (id in t.paths && t.paths[id] == s.paths[id]))
            && (forall id :: Spent(s, id) ==> Spent(t, id))
            && (s.active.Some? ==> t.active == s.active || Spent(t, s.active.value))
            && (s.closed ==> t.closed)
            && s.traffic.delivered <= t.traffic.delivered && s.traffic.sent <= t.traffic.sent
    decreases |more|
  {
    hide Apply, Inv, Spent, Terminal;
    if more == [] {
      assert es + more == es;
    } else {
      RunsForward(es, more[..|more| - 1]);
      assert (es + more)[..|es + more| - 1] == es + more[..|more| - 1];
      ReachableKeepsInv(es + more[..|more| - 1]);
      ApplyKeeps(Exec(es + more[..|more| - 1]), more[|more| - 1]);
    }
  }

  lemma SpentIsSilent(s: Sup, id: PathId, frame: nat)
    requires Spent(s, id)
    ensures Data(s, id, frame) == s
  {}

  /** Once a path that was active has been replaced, whether it had delivered or not, it never
      delivers again: whatever happens later, a frame arriving on it changes nothing. */
  lemma AbandonedPathIsSilent(es: seq<Event>, id: PathId, mid: seq<Event>, more: seq<Event>, frame: nat)
    requires Exec(es).active == Some(id) && Exec(es + mid).active != Some(id)
    ensures Data(Exec(es + mid + more), id, frame) == Exec(es + mid + more)
  {
    hide Exec, Data, Spent;
    RunsForward(es, mid);
    RunsForward(es + mid, more);
    SpentIsSilent(Exec(es + mid + more), id, frame);
  }

  // ---------------------------------------------------------------- frames that wait for a first path

  /** The frames Send accepted while there was no path, in order. */
  function Early(es: seq<Event>): seq<nat> {
    if es == [] then []
    else
      var init, e := es[..|es| - 1], es[|es| - 1];
      var s := Exec(init);
      if e.DoSend? && !s.closed && s.active == None then Early(init) + [e.frame] else Early(init)
  }

  /** Whether some path became active by Activate rather than by its own traffic. */
  predicate Activated(es: seq<Event>) {
    es != [] && (Activated(es[..|es| - 1]) || Promotes(Exec(es[..|es| - 1]), es[|es| - 1]))
  }

  predicate Promotes(s: Sup, e: Event) {
    e.DoActivate? && !s.closed && e.id in s.paths && s.paths[e.id] == Ready
  }

  /** The frames in a log that had waited, in order. */
  function Waited(log: seq<Sent>): seq<nat> {
    if log == [] then []
    else
      var rest, last := Waited(log[..|log| - 1]), log[|log| - 1];
      if last.waited then rest + [last.frame] else rest
  }

  lemma {:induction false} WaitedConcat(a: seq<Sent>, b: seq<Sent>)
    ensures Waited(a + b) == Waited(a) + Waited(b)
    decreases |b|
  {
    if b == [] {
      assert a + b == a;
    } else {
      assert (a + b)[..|a + b| - 1] == a + b[..|b| - 1];
      WaitedConcat(a, b[..|b| - 1]);
    }
  }

  lemma {:induction false} WaitedOutgoing(id: PathId, frames: seq<nat>)
    ensures Waited(Outgoing(id, frames)) == frames
    decreases |frames|
  {
    if frames != [] {
      var init := frames[..|frames| - 1];
      WaitedOutgoing(id, init);
      assert Outgoing(id, frames)[..|frames| - 1] == Outgoing(id, init);
    }
  }

  lemma WaitedDirect(log: seq<Sent>, id: PathId, frame: nat)
    ensures Waited(log + [Sent(id, frame, false)]) == Waited(log)
  {
    assert (log + [Sent(id, frame, false)])[..|log|] == log;
  }

  /** What one event does to the waiting frames. */
  lemma StepOnWaiting(s: Sup, e: Event)
    requires Inv(s)
    ensures var t := Apply(s, e);
            if Promotes(s, e) then
              && t.traffic.lazy == [] && t.active.Some?
              && Waited(t.traffic.sent) == Waited(s.traffic.sent) + s.traffic.lazy
            else Waited(t.traffic.sent) == Waited(s.traffic.sent)
                 && t.traffic.lazy == s.traffic.lazy + (if e.DoSend? && !s.closed && s.active == None then [e.frame] else [])
    ensures s.active.Some? || s.closed ==> Apply(s, e).active.Some? || Apply(s, e).closed
  {
    hide Waited;
    if e.DoActivate? {
      WaitedConcat(s.traffic.sent, Outgoing(e.id, s.traffic.lazy));
      WaitedOutgoing(e.id, s.traffic.lazy);
    }
    if e.DoSend? && s.active.Some? { WaitedDirect(s.traffic.sent, s.active.value, e.frame); }
  }

  /** In every run each frame accepted before there was a path is exactly once, in order, among
      the frames sent or the frames waiting: they all went out at the first Activate, and until
      there is one they all wait, even while a path promoted by its own traffic is active. */
  lemma {:induction false} EarlyFramesExactly(es: seq<Event>)
    ensures var s := Exec(es);
            && Waited(s.traffic.sent) + s.traffic.lazy == Early(es)
            && s.traffic.lazy == (if Activated(es) then [] else Early(es))
            && (Activated(es) ==> s.active.Some? || s.closed)
    decreases |es|
  {
    hide Apply, Inv, Waited, Promotes;
    if es == [] {
      assert Waited([]) == [] by { NothingWaited(); }
    } else {
      var init, e := es[..|es| - 1], es[|es| - 1];
      EarlyFramesExactly(init);
      ReachableKeepsInv(init);
      StepOnWaiting(Exec(init), e);
      PromotesIs(Exec(init), e);
    }
  }

  lemma NothingWaited()
    ensures Waited([]) == []
  {}

  lemma PromotesIs(s: Sup, e: Event)
    ensures Promotes(s, e) ==> e.DoActivate? && !s.closed
  {}

  /** With an active path, frames are stuck waiting exactly when some were accepted early and
      every promotion came from traffic. */
  lemma StuckExactly(es: seq<Event>)
    requires Exec(es).active.Some?
    ensures Exec(es).traffic.lazy != [] <==> Early(es) != [] && !Activated(es)
  {
    hide Exec, Early, Activated;
    EarlyFramesExactly(es);
  }

  lemma ExecSnoc(es: seq<Event>, e: Event)
    ensures Exec(es + [e]) == Apply(Exec(es), e)
  {
    assert (es + [e])[..|es|] == es;
  }

  /** A supervisor with one path, one waiting frame, and nothing sent. */
  function OnePath(id: PathId, state: PathState, watched: set<PathId>, frame: nat): Sup {
    Sup(map[id := state], None, 0, false, watched, Traffic([], [], [frame]))
  }

  lemma UpToReady(id: PathId, frame: nat)
    ensures Apply(Apply(Fresh, DoSend(frame, true)), DoRegister(id)) == OnePath(id, Candidate, {}, frame)
    ensures Apply(OnePath(id, Candidate, {}, frame), DoWatch) == OnePath(id, Candidate, {id}, frame)
    ensures Apply(OnePath(id, Candidate, {id}, frame), DoWarming(id)) == OnePath(id, Warming, {id}, frame)
    ensures Apply(OnePath(id, Warming, {id}, frame), DoReady(id)) == OnePath(id, Ready, {id}, frame)
  {}

  lemma FrameArrives(id: PathId, frame: nat, got: nat)
    ensures var s := Apply(OnePath(id, Ready, {id}, frame), OnFrame(id, got));
            && s.active == Some(id) && s.traffic.lazy == [frame] && s.traffic.sent == []
            && s.traffic.delivered == [Delivery(id, got), Delivery(id, got)]
  {}

  /** It does happen: a frame sent before the first path is ready still waits after that path
      was promoted by a frame of the peer, and that frame was delivered twice. */
  lemma FrameIsStuck(id: PathId, frame: nat, got: nat)
    ensures var s := Exec([DoSend(frame, true), DoRegister(id), DoWatch, DoWarming(id), DoReady(id), OnFrame(id, got)]);
            && s.active == Some(id) && s.traffic.lazy == [frame] && s.traffic.sent == []
            && s.traffic.delivered == [Delivery(id, got), Delivery(id, got)]
  {
    hide Exec, Apply, OnePath;
    var a, b, c, d, e, f := DoSend(frame, true), DoRegister(id), DoWatch, DoWarming(id), DoReady(id), OnFrame(id, got);
    assert Exec([]) == Fresh by { NothingDone(); }
    ExecSnoc([], a);
    ExecSnoc([a], b);
    ExecSnoc([a, b], c);
    ExecSnoc([a, b, c], d);
    ExecSnoc([a, b, c, d], e);
    ExecSnoc([a, b, c, d, e], f);
    assert [] + [a] == [a] && [a] + [b] == [a, b] && [a, b] + [c] == [a, b, c];
    assert [a, b, c] + [d] == [a, b, c, d] && [a, b, c, d] + [e] == [a, b, c, d, e];
    assert [a, b, c, d, e] + [f] == [a, b, c, d, e, f];
    UpToReady(id, frame);
    FrameArrives(id, frame, got);
  }

  lemma NothingDone()
    ensures Exec([]) == Fresh
  {}

  // ---------------------------------------------------------------- the supervisor object

  class PathSupervisor {
    var paths: map<PathId, PathState>
    var active: Option<PathId>
    var epoch: nat
    var closed: bool
    var watched: set<PathId>
    var lazy: seq<nat>
    ghost var sent: seq<Sent>
    ghost var delivered: seq<Delivery>

    ghost function View(): Sup
      reads this
    {
      Sup(paths, active, epoch, closed, watched, Traffic(sent, delivered, lazy))
    }

    constructor ()
      ensures View() == Fresh
    {
      paths, active, epoch, closed, watched, lazy := map[], None, 0, false, {}, [];
      sent, delivered := [], [];
    }

    method Add(id: PathId) returns (ok: bool)
      modifies this
      ensures View() == Register(old(View()), id)
      ensures ok == (!old(closed) && id !in old(paths))
    {
      if closed || id in paths { return false; }
      paths := paths[id := Candidate];
      ok := true;
    }

    method Move(id: PathId, was: PathState, now: PathState) returns (ok: bool)
      modifies this
      ensures View() == Transition(old(View()), id, was, now)
      ensures ok == (!old(closed) && id in old(paths) && old(paths)[id] == was)
    {
      if closed || id !in paths { return false; }
      if paths[id] != was { return false; }
      paths := paths[id := now];
      ok := true;
    }

    method MarkFailed(id: PathId) returns (ok: bool)
      modifies this
      ensures View() == FailPath(old(View()), id) && ok == (id in old(paths))
    {
      if id !in paths { return false; }
      if paths[id] == Closed || paths[id] == Broken { return true; }
      paths := paths[id := Broken];
      ok := true;
    }

    /** Closes every other path that is not terminal yet, in whatever order the map yields. */
    method CloseAllBut(id: PathId)
      modifies this`paths
      ensures paths == CloseOthers(old(paths), id)
    {
      ghost var before := paths;
      var todo: set<PathId> := paths.Keys;
      while todo != {}
        invariant todo <= before.Keys && paths.Keys == before.Keys
        invariant forall k :: k in todo ==> paths[k] == before[k]
        invariant forall k :: k in before && k !in todo ==> paths[k] == CloseOthers(before, id)[k]
        decreases |todo|
      {
        var k :| k in todo;
        if k != id && paths[k] != Closed && paths[k] != Broken { paths := paths[k := Closed]; }
        todo := todo - {k};
      }
    }

    method SwitchTo(id: PathId)
      requires id in paths
      modifies this
      ensures View() == Switch(old(View()), id)
    {
      epoch := epoch + 1;
      paths := paths[id := Active];
      active := Some(id);
      CloseAllBut(id);
    }

    /** Promotes a path; returns the epoch of the activation. */
    method Promote(id: PathId) returns (at: Option<nat>)
      modifies this
      ensures View() == Activate(old(View()), id)
      ensures at.Some? ==> active == Some(id) && at.value == epoch
    {
      if closed || id !in paths { return None; }
      if paths[id] == Closed || paths[id] == Broken { return None; }
      if active == Some(id) && paths[id] == Active { return Some(epoch); }
      if paths[id] != Ready && paths[id] != Active {
        epoch := epoch + 1;
        return None;
      }
      SwitchTo(id);
      sent := sent + Outgoing(id, lazy);
      lazy := [];
      at := Some(epoch);
    }

    /** Installs the consumer on the paths there are. */
    method OnData()
      modifies this`watched
      ensures View() == Watch(old(View()))
    {
      watched := watched + paths.Keys;
    }

    /** Decides whether a frame from a path is delivered, promoting the path if it is ready. */
    method PromoteOnData(id: PathId) returns (deliver: bool, promoted: bool)
      requires id in paths
      modifies this
      ensures View() == if promoted then Switch(old(View()), id) else old(View())
      ensures deliver == (!old(closed) && ((old(active) == Some(id) && old(paths)[id] == Active) || old(paths)[id] == Ready))
      ensures promoted == (deliver && old(paths)[id] == Ready)
    {
      if closed { return false, false; }
      if active == Some(id) && paths[id] == Active { return true, false; }
      if paths[id] == Ready {
        SwitchTo(id);
        return true, true;
      }
      deliver, promoted := false, false;
    }

    /** One frame from a path: handed to the consumer once, or twice if it promoted the path. */
    method Receive(id: PathId, frame: nat)
      modifies this
      ensures View() == Data(old(View()), id, frame)
    {
      if id !in watched || id !in paths { return; }
      var deliver, promoted := PromoteOnData(id);
      if !deliver { return; }
      delivered := delivered + [Delivery(id, frame)];
      if promoted { delivered := delivered + [Delivery(id, frame)]; }
    }

    method Send(frame: nat, writeOk: bool) returns (ok: bool)
      modifies this
      ensures View() == SendOne(old(View()), frame, writeOk)
      ensures ok == (!old(closed) && (old(active) == None || writeOk))
    {
      if closed { return false; }
      if active == None {
        lazy := lazy + [frame];
        return true;
      }
      if !writeOk { return false; }
      sent := sent + [Sent(active.value, frame, false)];
      ok := true;
    }

    method Shut()
      modifies this
      ensures View() == if old(closed) then old(View()) else CloseAll(old(View()))
    {
      if closed { return; }
      closed := true;
      paths := map[];
      active := None;
    }
  }
}
