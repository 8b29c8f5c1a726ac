/** The path supervisor as an observer would describe it: everything is read off the sequence of
    events alone, one path at a time, and the supervisor is proved to agree with it. */
module SupervisorHistory {
  import opened Wire
  import opened Supervisor

  // ---------------------------------------------------------------- read off the events

  function Init(es: seq<Event>): seq<Event>
    requires es != []
  {
    es[..|es| - 1]
  }

  function Last(es: seq<Event>): Event
    requires es != []
  {
    es[|es| - 1]
  }

  predicate Ended(es: seq<Event>) { exists i :: 0 <= i < |es| && es[i].DoClose? }

  /** The path an event promotes: a ready one that is activated, or that hears from the peer. */
  function Promoted(es: seq<Event>, e: Event): Option<PathId>
    decreases |es|, 1
  {
    if Ended(es) then None
    else match e
      case DoActivate(id) => if Life(es, id) == Some(Ready) then Some(id) else None
      case OnFrame(id, _) => if Life(es, id) == Some(Ready) && Hooked(es, id) then Some(id) else None
      case _ => None
  }

  /** The life of one path: candidate, warming, ready, then active by its own promotion; closed
      by any other promotion, and failed when told so, unless it has ended already. */
  function Life(es: seq<Event>, id: PathId): Option<PathState>
    decreases |es|, 0
  {
    if es == [] then None
    else
      var was, e := Life(Init(es), id), Last(es);
      if was == None then (if e == DoRegister(id) && !Ended(Init(es)) then Some(Candidate) else None)
      else if Terminal(was.value) then was
      else if e == DoFail(id) then Some(Broken)
      else if Promoted(Init(es), e) == Some(id) then Some(Active)
      else if Promoted(Init(es), e).Some? then Some(Closed)
      else if Ended(Init(es)) then was
      else if e == DoWarming(id) && was.value == Candidate then Some(Warming)
      else if e == DoReady(id) && was.value == Warming then Some(Ready)
      else was
  }

  /** The consumer was installed after the path was registered. */
  predicate Hooked(es: seq<Event>, id: PathId)
    decreases |es|, 0
  {
    es != [] && (Hooked(Init(es), id) || (Last(es).DoWatch? && !Ended(Init(es)) && Life(Init(es), id).Some?))
  }

  /** The path promoted last. */
  function Leader(es: seq<Event>): Option<PathId> {
    if es == [] then None
    else if Promoted(Init(es), Last(es)).Some? then Promoted(Init(es), Last(es))
    else Leader(Init(es))
  }

  /** An Activate of a path that is still coming up counts, though it promotes nothing. */
  predicate Rejected(es: seq<Event>, e: Event) {
    !Ended(es) && e.DoActivate? && (Life(es, e.id) == Some(Candidate) || Life(es, e.id) == Some(Warming))
  }

  function Epochs(es: seq<Event>): nat {
    if es == [] then 0
    else Epochs(Init(es)) + if Promoted(Init(es), Last(es)).Some? || Rejected(Init(es), Last(es)) then 1 else 0
  }

  /** What Send accepted, in order: with the leader at that moment if there was one. */
  function Accepted(es: seq<Event>): seq<(nat, Option<PathId>)> {
    if es == [] then []
    else
      var init, e := Init(es), Last(es);
      if e.DoSend? && !Ended(init) && (e.writeOk || Leader(init) == None)
      then Accepted(init) + [(e.frame, Leader(init))] else Accepted(init)
  }

  /** What reaches the consumer: each frame of the leader while it is active once, and a frame
      that makes its path the leader twice. */
  function Heard(es: seq<Event>): seq<Delivery> {
    if es == [] then []
    else
      var init, e := Init(es), Last(es);
      if !e.OnFrame? || Ended(init) then Heard(init)
      else
        var d := Delivery(e.id, e.frame);
        if Promoted(init, e).Some? then Heard(init) + [d, d]
        else if Hooked(init, e.id) && Life(init, e.id) == Some(Active) then Heard(init) + [d]
        else Heard(init)
  }

  // ---------------------------------------------------------------- the supervisor agrees

  /** The frames of a log that were sent as they came, in order, with their paths. */
  function Direct(log: seq<Sent>): seq<(nat, Option<PathId>)> {
    if log == [] then []
    else
      var rest, last := Direct(log[..|log| - 1]), log[|log| - 1];
      if last.waited then rest else rest + [(last.frame, Some(last.path))]
  }

  /** The accepted frames that found a leader, and those that did not. */
  function Led(frames: seq<(nat, Option<PathId>)>): seq<(nat, Option<PathId>)> {
    if frames == [] then []
    else
      var rest, last := Led(frames[..|frames| - 1]), frames[|frames| - 1];
      if last.1.Some? then rest + [last] else rest
  }

  function Leaderless(frames: seq<(nat, Option<PathId>)>): seq<nat> {
    if frames == [] then []
    else
      var rest, last := Leaderless(frames[..|frames| - 1]), frames[|frames| - 1];
      if last.1 == None then rest + [last.0] else rest
  }

  ghost predicate PathsAgree(es: seq<Event>, s: Sup) {
    && s.closed == Ended(es)
    && (!s.closed ==>
          && s.active == Leader(es)
          && (forall id :: id in s.paths <==> Life(es, id).Some?)
          && (forall id :: id in s.paths ==> Life(es, id) == Some(s.paths[id]))
          && (forall id :: id in s.watched <==> Hooked(es, id)))
    && s.epoch == Epochs(es)
  }

  lemma EndedStep(es: seq<Event>)
    requires es != []
    ensures Ended(es) <==> Ended(Init(es)) || Last(es).DoClose?
  {
    if Ended(Init(es)) {
      var i :| 0 <= i < |Init(es)| && Init(es)[i].DoClose?;
      assert es[i].DoClose?;
    }
    if Ended(es) && !Last(es).DoClose? {
      var i :| 0 <= i < |es| && es[i].DoClose?;
      assert Init(es)[i].DoClose?;
    }
  }

  /** Which path an event promotes, seen from the state. */
  lemma PromotedIs(es: seq<Event>, s: Sup, e: Event)
    requires PathsAgree(es, s) && Inv(s)
    ensures Promoted(es, e).Some? <==>
            && (e.DoActivate? || e.OnFrame?) && !s.closed && e.id in s.paths && s.paths[e.id] == Ready
            && (e.OnFrame? ==> e.id in s.watched)
    ensures Promoted(es, e).Some? ==> Promoted(es, e) == Some(e.id) && Apply(s, e).active == Some(e.id)
    ensures Promoted(es, e) == None && !Apply(s, e).closed ==> Apply(s, e).active == s.active
    ensures Apply(s, e).closed == (s.closed || e.DoClose?)
    ensures Apply(s, e).epoch == s.epoch + if Promoted(es, e).Some? || Rejected(es, e) then 1 else 0
  {
    hide Life, Hooked, Ended, Outgoing;
  }

  /** One event in the life of one path. */
  lemma LifeStep(es: seq<Event>, s: Sup, id: PathId)
    requires es != [] && PathsAgree(Init(es), s) && Inv(s) && !Apply(s, Last(es)).closed
    ensures var t := Apply(s, Last(es));
            && (id in t.paths <==> Life(es, id).Some?)
            && (id in t.paths ==> Life(es, id) == Some(t.paths[id]))
            && (id in t.watched <==> Hooked(es, id))
  {
    PromotedIs(Init(es), s, Last(es));
    assert Life(Init(es), id).Some? ==> Life(Init(es), id) == Some(s.paths[id]);
    hide Promoted, Ended, Rejected, Epochs, Outgoing;
  }

  lemma {:induction false} HistoryOfPaths(es: seq<Event>)
    ensures PathsAgree(es, Exec(es))
    decreases |es|
  {
    if es != [] {
      HistoryOfPaths(Init(es));
      ReachableKeepsInv(Init(es));
      var s, e := Exec(Init(es)), Last(es);
      PromotedIs(Init(es), s, e);
      EndedStep(es);
      if !Apply(s, e).closed {
        forall id
          ensures id in Apply(s, e).paths <==> Life(es, id).Some?
          ensures id in Apply(s, e).paths ==> Life(es, id) == Some(Apply(s, e).paths[id])
          ensures id in Apply(s, e).watched <==> Hooked(es, id)
        {
          LifeStep(es, s, id);
        }
      }
      hide Apply, Promoted, Life, Hooked, Ended, Rejected, Inv;
    }
  }

  // ---------------------------------------------------------------- traffic

  lemma LedPush(frames: seq<(nat, Option<PathId>)>, f: (nat, Option<PathId>))
    ensures Led(frames + [f]) == Led(frames) + (if f.1.Some? then [f] else [])
    ensures Leaderless(frames + [f]) == Leaderless(frames) + (if f.1 == None then [f.0] else [])
  {
    assert (frames + [f])[..|frames|] == frames;
  }

  lemma {:induction false} DirectConcat(a: seq<Sent>, b: seq<Sent>)
    ensures Direct(a + b) == Direct(a) + Direct(b)
    decreases |b|
  {
    if b == [] {
      assert a + b == a;
    } else {
      assert (a + b)[..|a + b| - 1] == a + b[..|b| - 1];
      DirectConcat(a, b[..|b| - 1]);
    }
  }

  lemma {:induction false} NothingDirect(id: PathId, frames: seq<nat>)
    ensures Direct(Outgoing(id, frames)) == []
    decreases |frames|
  {
    if frames != [] {
      var init := frames[..|frames| - 1];
      NothingDirect(id, init);
      assert Outgoing(id, frames)[..|frames| - 1] == Outgoing(id, init);
    }
  }

  /** What one event adds to the frames sent as they came. */
  lemma DirectStep(s: Sup, e: Event)
    ensures var t := Apply(s, e);
            Direct(t.traffic.sent) == Direct(s.traffic.sent)
              + if e.DoSend? && !s.closed && s.active.Some? && e.writeOk then [(e.frame, s.active)] else []
  {
    hide Direct;
    if e.DoActivate? {
      DirectConcat(s.traffic.sent, Outgoing(e.id, s.traffic.lazy));
      NothingDirect(e.id, s.traffic.lazy);
    }
    if e.DoSend? && s.active.Some? {
      DirectConcat(s.traffic.sent, [Sent(s.active.value, e.frame, false)]);
      OneDirect(s.active.value, e.frame);
    }
  }

  lemma OneDirect(id: PathId, frame: nat)
    ensures Direct([Sent(id, frame, false)]) == [(frame, Some(id))]
  {
    assert Direct([Sent(id, frame, false)][..0]) == [];
  }

  lemma HeardStep(es: seq<Event>, s: Sup)
    requires es != [] && PathsAgree(Init(es), s) && Inv(s) && s.traffic.delivered == Heard(Init(es))
    ensures Apply(s, Last(es)).traffic.delivered == Heard(es)
  {
    var e := Last(es);
    PromotedIs(Init(es), s, e);
    if e.OnFrame? && !s.closed {
      assert e.id in s.paths <==> Life(Init(es), e.id).Some?;
      assert e.id in s.paths ==> Life(Init(es), e.id) == Some(s.paths[e.id]);
      assert e.id in s.watched <==> Hooked(Init(es), e.id);
    }
    hide Promoted, Life, Hooked, Ended, Rejected, Epochs, Outgoing, CloseOthers;
    hide PathsAgree;
  }

  lemma SentStep(es: seq<Event>, s: Sup)
    requires es != [] && PathsAgree(Init(es), s) && Inv(s)
    requires Direct(s.traffic.sent) == Led(Accepted(Init(es))) && Early(Init(es)) == Leaderless(Accepted(Init(es)))
    requires Exec(Init(es)) == s
    ensures Direct(Apply(s, Last(es)).traffic.sent) == Led(Accepted(es)) && Early(es) == Leaderless(Accepted(es))
  {
    var e := Last(es);
    DirectStep(s, e);
    if e.DoSend? { LedPush(Accepted(Init(es)), (e.frame, Leader(Init(es)))); }
    hide Apply, Direct, Led, Leaderless, Life, Hooked, Leader, Promoted, Ended, Exec;
  }

  /** In every run the frames sent as they came are exactly those Send accepted while a path had
      been promoted, in order, each on the path promoted last at that moment; together with the
      frames that came before any path, which are sent or wait, that is every accepted frame
      once. What the consumer got is the frames of that path while it was active, in order,
      and twice the frame that promoted it. */
  lemma {:induction false} TrafficExactly(es: seq<Event>)
    ensures var s := Exec(es);
            && Direct(s.traffic.sent) == Led(Accepted(es))
            && Waited(s.traffic.sent) + s.traffic.lazy == Leaderless(Accepted(es))
            && s.traffic.delivered == Heard(es)
    decreases |es|
  {
    hide Apply, Direct, Led, Leaderless, Accepted, Heard, Early, PathsAgree, Waited, Inv, Activated;
    TrafficSplit(es);
    EarlyFramesExactly(es);
  }

  lemma {:induction false} TrafficSplit(es: seq<Event>)
    ensures var s := Exec(es);
            && Direct(s.traffic.sent) == Led(Accepted(es)) && Early(es) == Leaderless(Accepted(es))
            && s.traffic.delivered == Heard(es)
    decreases |es|
  {
    if es == [] {
      NoTraffic();
    } else {
      hide Apply, Direct, Led, Leaderless, Accepted, Heard, Early, PathsAgree, Inv;
      TrafficSplit(Init(es));
      HistoryOfPaths(Init(es));
      ReachableKeepsInv(Init(es));
      var s := Exec(Init(es));
      HeardStep(es, s);
      SentStep(es, s);
      assert Exec(es) == Apply(s, Last(es));
    }
  }

  lemma NoTraffic()
    ensures var s := Exec([]);
            && Direct(s.traffic.sent) == Led(Accepted([])) && Early([]) == Leaderless(Accepted([]))
            && s.traffic.delivered == Heard([])
  {}
}
