/** The transfer completes: whatever the order of turns, if some useful turn always comes, both
    sides succeed; from a fresh start, and after any path change of any ordered run. */
module CompletionTheorem {
  import opened Wire
  import opened Geometry
  import opened ReceiverSafety
  import opened Engine
  import opened EngineResults
  import opened Cutover
  import opened CutoverResults
  import opened Completion
  import opened CompletionRuns
  import opened CompletionResults
  import S = SenderModel
  import W = SenderWindow
  import R = ReceiverModel

  type Schedule = nat -> Turn

  // ---------------------------------------------------------------- schedules

  lemma TurnKeeps(x: Setup, z: Lane, t: Turn)
    requires LaneOk(x, z)
    ensures SetupOk(x) && R.WellFormed(z.y.r) && LaneOk(x, Take(x, z, t)) && S.ConfigOk(x.c)
  {
    hide LaneOk, Take;
    match t {
      case SenderRuns => SenderTurn(x, z);
      case FrameArrives => FrameTurn(x, z); LaneConfig(x, z);
      case ReplyArrives => ReplyTurn(x, z); LaneConfig(x, z);
    }
  }

  lemma LaneConfig(x: Setup, z: Lane)
    requires LaneOk(x, z)
    ensures S.ConfigOk(x.c) && SetupOk(x) && R.WellFormed(z.y.r)
  {
    LaneFacts(x, z);
    hide LaneOk;
    CutoverFacts(x, z.y, z.gap);
    SetupConfig(x);
  }

  /** Where the lane is after `k` turns of a schedule. */
  function At(x: Setup, z: Lane, plan: Schedule, k: nat): (w: Lane)
    requires SetupOk(x) && R.WellFormed(z.y.r)
    ensures R.WellFormed(w.y.r)
  {
    if k == 0 then z else Take(x, At(x, z, plan, k - 1), plan(k - 1))
  }

  /** Whenever some turn has something to do, sooner or later a turn that has something to do is
      taken. Turns that have nothing to do may be taken at any time. */
  ghost predicate Fair(x: Setup, z: Lane, plan: Schedule)
    requires SetupOk(x) && R.WellFormed(z.y.r) && S.ConfigOk(x.c)
  {
    forall k: nat, t: Turn :: Busy(x, At(x, z, plan, k), t) ==>
      exists m: nat :: k <= m && Busy(x, At(x, z, plan, m), plan(m))
  }

  lemma {:induction false} AtOk(x: Setup, z: Lane, plan: Schedule, k: nat)
    requires LaneOk(x, z)
    ensures SetupOk(x) && R.WellFormed(z.y.r) && S.ConfigOk(x.c) && LaneOk(x, At(x, z, plan, k))
  {
    hide LaneOk, Take, SetupOk, R.WellFormed, S.ConfigOk;
    LaneConfig(x, z);
    if k > 0 {
      AtOk(x, z, plan, k - 1);
      TurnKeeps(x, At(x, z, plan, k - 1), plan(k - 1));
    }
  }

  /** A turn with nothing to do changes nothing. */
  lemma IdleTurn(x: Setup, z: Lane, t: Turn)
    requires SetupOk(x) && R.WellFormed(z.y.r) && S.ConfigOk(x.c) && !Busy(x, z, t)
    ensures Take(x, z, t) == z
  {
    hide SetupOk, R.WellFormed, S.ConfigOk, S.RunStep;
  }

  lemma BusyBelow(x: Setup, z: Lane, t: Turn)
    requires LaneOk(x, z) && S.ConfigOk(x.c) && Busy(x, z, t)
    ensures SetupOk(x) && R.WellFormed(z.y.r) && LaneOk(x, Take(x, z, t))
    ensures Below(x, SceneOf(Take(x, z, t)), SceneOf(z))
  {
    TurnKeeps(x, z, t);
    hide LaneOk, Below, Take, SetupOk, R.WellFormed, S.ConfigOk, Busy;
    match t {
      case SenderRuns => SenderBelow(x, z);
      case FrameArrives => FrameBelow(x, z);
      case ReplyArrives => ReplyBelow(x, z);
    }
  }

  /** The first useful turn from `k` on finds the lane as it was. */
  lemma {:induction false} FirstBusy(x: Setup, z: Lane, plan: Schedule, k: nat, m: nat) returns (n: nat)
    requires SetupOk(x) && R.WellFormed(z.y.r) && S.ConfigOk(x.c)
    requires k <= m && Busy(x, At(x, z, plan, m), plan(m))
    ensures k <= n && Busy(x, At(x, z, plan, n), plan(n)) && At(x, z, plan, n) == At(x, z, plan, k)
    decreases m - k
  {
    hide SetupOk, R.WellFormed, S.ConfigOk, Busy, Take;
    if Busy(x, At(x, z, plan, k), plan(k)) {
      n := k;
    } else {
      IdleTurn(x, At(x, z, plan, k), plan(k));
      assert At(x, z, plan, k + 1) == At(x, z, plan, k);
      assert k != m;
      n := FirstBusy(x, z, plan, k + 1, m);
    }
  }

  /** A useful turn of the schedule, with the lane still as it is at `k`. */
  lemma NextBusy(x: Setup, z: Lane, plan: Schedule, k: nat) returns (n: nat)
    requires LaneOk(x, z) && SetupOk(x) && R.WellFormed(z.y.r) && S.ConfigOk(x.c) && Fair(x, z, plan)
    requires !BothDone(At(x, z, plan, k))
    ensures k <= n && LaneOk(x, At(x, z, plan, n + 1))
    ensures Below(x, SceneOf(At(x, z, plan, n + 1)), SceneOf(At(x, z, plan, k)))
  {
    hide LaneOk, SetupOk, R.WellFormed, S.ConfigOk, Busy, Take, BothDone, Below;
    var now := At(x, z, plan, k);
    AtOk(x, z, plan, k);
    if forall t: Turn :: !Busy(x, now, t) { IdleIsFinished(x, now); }
    var t: Turn :| Busy(x, now, t);
    var m: nat :| k <= m && Busy(x, At(x, z, plan, m), plan(m));
    n := FirstBusy(x, z, plan, k, m);
    BusyBelow(x, now, plan(n));
    assert At(x, z, plan, n + 1) == Take(x, now, plan(n));
  }

  lemma {:induction false} FinishesFrom(x: Setup, z: Lane, plan: Schedule, k: nat, v: Scene) returns (n: nat)
    requires LaneOk(x, z) && SetupOk(x) && R.WellFormed(z.y.r) && S.ConfigOk(x.c) && Fair(x, z, plan)
    requires v == SceneOf(At(x, z, plan, k))
    ensures k <= n && BothDone(At(x, z, plan, n))
    decreases FilesLeft(x, v.r), BlocksLeft(v.r), AskLeft(v.r), Nacks(v.q),
      FileSteps(x, v.s), Unread(x, v.s), |v.s.win.queue|, HandSteps(v.s), |v.p|, |v.q|
  {
    hide LaneOk, SetupOk, R.WellFormed, S.ConfigOk, Busy, Take, FilesLeft, BlocksLeft, AskLeft, Nacks, FileSteps, Unread,
      HandSteps, BothDone, Fair, At, SceneOf;
    n := k;
    if !BothDone(At(x, z, plan, k)) {
      var m := NextBusy(x, z, plan, k);
      n := FinishesFrom(x, z, plan, m + 1, SceneOf(At(x, z, plan, m + 1)));
    }
  }

  /** From any sound lane every fair schedule ends with both sides in success. */
  lemma EveryFairScheduleFinishes(x: Setup, z: Lane, plan: Schedule)
    requires LaneOk(x, z) && SetupOk(x) && R.WellFormed(z.y.r) && S.ConfigOk(x.c) && Fair(x, z, plan)
    ensures exists n: nat :: BothDone(At(x, z, plan, n))
  {
    hide LaneOk, SetupOk, R.WellFormed, S.ConfigOk, Fair, BothDone;
    var n := FinishesFrom(x, z, plan, 0, SceneOf(At(x, z, plan, 0)));
  }

  // ---------------------------------------------------------------- fair schedules exist

  /** Taking turns. */
  const RoundRobin: Schedule := k => if k % 3 == 0 then SenderRuns else if k % 3 == 1 then FrameArrives else ReplyArrives

  function TurnOf(t: Turn): nat {
    match t
    case SenderRuns => 0
    case FrameArrives => 1
    case ReplyArrives => 2
  }

  /** The turn of `t` comes within three, and till then an idle lane does not change. */
  lemma {:induction false} ItsTurnComes(x: Setup, z: Lane, k: nat, t: Turn) returns (m: nat)
    requires SetupOk(x) && R.WellFormed(z.y.r) && S.ConfigOk(x.c) && Busy(x, At(x, z, RoundRobin, k), t)
    ensures k <= m && Busy(x, At(x, z, RoundRobin, m), RoundRobin(m))
    decreases (TurnOf(t) + 3 - k % 3) % 3
  {
    hide SetupOk, R.WellFormed, S.ConfigOk, Busy, Take;
    if Busy(x, At(x, z, RoundRobin, k), RoundRobin(k)) {
      m := k;
    } else {
      IdleTurn(x, At(x, z, RoundRobin, k), RoundRobin(k));
      assert At(x, z, RoundRobin, k + 1) == At(x, z, RoundRobin, k);
      assert RoundRobin(k) != t;
      m := ItsTurnComes(x, z, k + 1, t);
    }
  }

  /** Taking turns is fair, whatever the transfer. */
  lemma RoundRobinIsFair(x: Setup, z: Lane)
    requires SetupOk(x) && R.WellFormed(z.y.r) && S.ConfigOk(x.c)
    ensures Fair(x, z, RoundRobin)
  {
    hide SetupOk, R.WellFormed, S.ConfigOk, Busy, Take, At;
    forall k: nat, t: Turn | Busy(x, At(x, z, RoundRobin, k), t)
      ensures exists m: nat :: k <= m && Busy(x, At(x, z, RoundRobin, m), RoundRobin(m))
    {
      var m := ItsTurnComes(x, z, k, t);
    }
  }
}
