/** Who may drive the shared event loop, and when it may be restarted.

    Script threads poll the loop by hand, restart it and create workers; a worker
    thread runs the loop until its executor is destroyed or a handler throws.
    `poll` tests the number of workers twice, without and with the mutex; workers
    are counted under the mutex and uncounted without it.  A step is one access to
    the counter, one operation on the mutex, or one entry to or exit from the loop.
    There are fewer than 2^64 workers.
 */
module EventLoop {
  import opened Tally
  import G = SocketGate

  datatype Point =
    | Idle
      // poll, poll_one
    | PollWants        // the first load was zero; waits for the mutex
    | PollLocked       // before the second load
    | PollInside       // inside io.poll() or io.poll_one()
    | PollUnlock
      // restart, work_guard
    | RestartWants
    | RestartLocked    // before the test
    | Restarting       // inside io.restart()
    | RestartUnlock
      // the constructor of a thread executor
    | MakeWants
    | MakeLocked
    | MakeRestarting   // inside io.restart()
    | MakeGuarded      // owns a work guard; before the increment
    | MakeUnlock
    | MakeSpawn        // before the thread is created
    | MakeUndo         // the thread could not be created; before the decrement
      // the worker thread
    | WorkPoll         // inside io.poll_one()
    | WorkCheck        // before it loads `running`
    | WorkRun          // inside io.run_one_for()
    | WorkExit         // left the loop; before the decrement

  /** `quit` holds the workers whose `running` flag has been cleared. */
  datatype Loop = Loop(locked: bool, executors: nat, stopped: bool, quit: set<Token>, points: map<Token, Point>)

  const INITIAL := Loop(false, 0, false, {}, map[])

  datatype Action =
    | Poll | Restart | Make      // enter one of the functions
    | Step(good: bool)           // the next step; `good` chooses between its outcomes
    | Stop                       // the loop runs out of work, inside a poll or when a work guard goes
    | Destroy                    // the destructor clears `running`

  function PointOf(l: Loop, t: Token): Point {
    if t in l.points then l.points[t] else Idle
  }

  predicate Inside(p: Point) { p.PollInside? || p.WorkPoll? || p.WorkRun? }

  predicate InWorkerLoop(p: Point) { p.WorkPoll? || p.WorkCheck? || p.WorkRun? }

  predicate InRestart(p: Point) { p.Restarting? || p.MakeRestarting? }

  predicate Wants(p: Point) { p.PollWants? || p.RestartWants? || p.MakeWants? }

  predicate Enabled(l: Loop, t: Token, a: Action) {
    var p := PointOf(l, t);
    match a
    case Poll => p == Idle
    case Restart => p == Idle
    case Make => p == Idle && t !in l.quit
    case Step(_) => p != Idle && (Wants(p) ==> !l.locked)
    case Stop => true
    case Destroy => InWorkerLoop(p)
  }

  function Move(l: Loop, t: Token, p: Point): Loop {
    l.(points := l.points[t := p])
  }

  /** Only an idle, stopped loop is restarted. */
  predicate MayRestart(l: Loop) { l.executors == 0 && l.stopped }

  function Next(l: Loop, t: Token, a: Action): Loop
    requires Enabled(l, t, a)
  {
    match a
    case Poll => if l.executors != 0 then l else Move(l, t, PollWants)
    case Restart => Move(l, t, RestartWants)
    case Make => Move(l, t, MakeWants)
    case Stop => l.(stopped := true)
    case Destroy => l.(quit := l.quit + {t})
    case Step(good) => StepFrom(l, t, PointOf(l, t), good)
  }

  function StepFrom(l: Loop, t: Token, p: Point, good: bool): Loop
    requires p != Idle
  {
    match p
    case PollWants => Move(l.(locked := true), t, PollLocked)
    case PollLocked => Move(l, t, if l.executors == 0 then PollInside else PollUnlock)
    case PollInside => Move(l, t, PollUnlock)
    case PollUnlock => Move(l.(locked := false), t, Idle)
    case RestartWants => Move(l.(locked := true), t, RestartLocked)
    case RestartLocked => Move(l, t, if MayRestart(l) then Restarting else RestartUnlock)
    case Restarting => Move(l.(stopped := false), t, RestartUnlock)
    case RestartUnlock => Move(l.(locked := false), t, Idle)
    case MakeWants => Move(l.(locked := true), t, MakeLocked)
    case MakeLocked => Move(l, t, if MayRestart(l) then MakeRestarting else MakeGuarded)
    case MakeRestarting => Move(l.(stopped := false), t, MakeGuarded)
    case MakeGuarded =>
      // creating the work guard may throw, before the worker is counted
      if good then Move(l.(executors := l.executors + 1), t, MakeUnlock) else Move(l, t, RestartUnlock)
    case MakeUnlock => Move(l.(locked := false), t, MakeSpawn)
    case MakeSpawn => Move(l, t, if good then WorkPoll else MakeUndo)
    case MakeUndo => Move(l.(executors := G.FetchSub(l.executors)), t, Idle)
    // the loop: drain with poll_one, test `running`, wait in run_one_for; a handler
    // may throw out of both calls
    case WorkPoll => if good then Move(l, t, WorkCheck) else Move(l, t, WorkExit)
    case WorkCheck => Move(l, t, if t in l.quit then WorkExit else WorkRun)
    case WorkRun => if good then Move(l, t, WorkPoll) else Move(l, t, WorkExit)
    case WorkExit => Move(l.(executors := G.FetchSub(l.executors)), t, Idle)
  }

  predicate IsRun(l: Loop, es: seq<(Token, Action)>)
    decreases es
  {
    es != [] ==> Enabled(l, es[0].0, es[0].1) && IsRun(Next(l, es[0].0, es[0].1), es[1..])
  }

  function After(l: Loop, es: seq<(Token, Action)>): Loop
    requires IsRun(l, es)
    decreases es
  {
    if es == [] then l else After(Next(l, es[0].0, es[0].1), es[1..])
  }

  ghost predicate Reachable(l: Loop) {
    exists es :: IsRun(INITIAL, es) && After(INITIAL, es) == l
  }

  // --- The invariant --------------------------------------------------------------------

  predicate HoldsMutex(p: Point) {
    || p.PollLocked? || p.PollInside? || p.PollUnlock?
    || p.RestartLocked? || p.Restarting? || p.RestartUnlock?
    || p.MakeLocked? || p.MakeRestarting? || p.MakeGuarded? || p.MakeUnlock?
  }

  /** Between the increment and the decrement of the number of workers. */
  predicate Counted(p: Point) {
    p.MakeUnlock? || p.MakeSpawn? || p.MakeUndo? || p.WorkPoll? || p.WorkCheck? || p.WorkRun? || p.WorkExit?
  }

  /** Relies on the absence of workers. */
  predicate Sole(p: Point) { p.PollInside? || p.Restarting? || p.MakeRestarting? }

  ghost predicate Inv(l: Loop) {
    && Count(l.points, HoldsMutex) == One(l.locked)
    && Count(l.points, Counted) == l.executors
    && (Count(l.points, Sole) > 0 ==> l.executors == 0)
    && (Count(l.points, InRestart) > 0 ==> l.stopped)
  }

  lemma MoveCounts(l: Loop, t: Token, p: Point)
    ensures Count(l.points[t := p], HoldsMutex)
         == Count(l.points, HoldsMutex) - One(HoldsMutex(PointOf(l, t))) + One(HoldsMutex(p))
    ensures Count(l.points[t := p], Counted) == Count(l.points, Counted) - One(Counted(PointOf(l, t))) + One(Counted(p))
    ensures Count(l.points[t := p], Sole) == Count(l.points, Sole) - One(Sole(PointOf(l, t))) + One(Sole(p))
    ensures Count(l.points[t := p], InRestart) == Count(l.points, InRestart) - One(InRestart(PointOf(l, t))) + One(InRestart(p))
  {
    CountMove(l.points, t, p, HoldsMutex);
    CountMove(l.points, t, p, Counted);
    CountMove(l.points, t, p, Sole);
    CountMove(l.points, t, p, InRestart);
  }

  /** Somebody who holds the mutex without relying on the absence of workers keeps
      everybody from doing so. */
  lemma MutexKeepsSoleOut(l: Loop, t: Token)
    requires Inv(l) && HoldsMutex(PointOf(l, t)) && !Sole(PointOf(l, t))
    ensures Count(l.points, Sole) == 0 && Count(l.points, InRestart) == 0
  {
    assert At(l.points, t, OtherHolder);
    CountSome(l.points, OtherHolder);
    CountDisjoint(l.points, Sole, OtherHolder, HoldsMutex);
    CountImplied(l.points, InRestart, Sole);
  }

  predicate OtherHolder(p: Point) { HoldsMutex(p) && !Sole(p) }

  lemma InitialInv()
    ensures Inv(INITIAL)
  {
  }

  lemma StepKeepsInv(l: Loop, t: Token, a: Action)
    requires Inv(l) && Enabled(l, t, a)
    ensures Inv(Next(l, t, a))
  {
    match a {
      case Poll => MoveCounts(l, t, PollWants);
      case Restart => MoveCounts(l, t, RestartWants);
      case Make => MoveCounts(l, t, MakeWants);
      case Stop =>
      case Destroy =>
      case Step(good) =>
        var p := PointOf(l, t);
        if p.WorkExit? || p.MakeUndo? {
          UncountKeepsInv(l, t, good);
        } else if InWorkerLoop(p) {
          WorkerKeepsInv(l, t, good);
        } else if Counted(p) {
          SpawnKeepsInv(l, t, good);
        } else if Sole(p) || p.PollUnlock? || p.RestartUnlock? {
          LeaveKeepsInv(l, t, good);
        } else if Wants(p) {
          EnterKeepsInv(l, t, good);
        } else {
          TestKeepsInv(l, t, good);
        }
    }
  }

  lemma UncountKeepsInv(l: Loop, t: Token, good: bool)
    requires Inv(l) && Enabled(l, t, Step(good)) && (PointOf(l, t).WorkExit? || PointOf(l, t).MakeUndo?)
    ensures Inv(Next(l, t, Step(good)))
  {
    MoveCounts(l, t, Idle);
  }

  lemma WorkerKeepsInv(l: Loop, t: Token, good: bool)
    requires Inv(l) && Enabled(l, t, Step(good)) && InWorkerLoop(PointOf(l, t))
    ensures Inv(Next(l, t, Step(good)))
  {
    MoveCounts(l, t, PointOf(Next(l, t, Step(good)), t));
  }

  lemma SpawnKeepsInv(l: Loop, t: Token, good: bool)
    requires Inv(l) && Enabled(l, t, Step(good)) && (PointOf(l, t).MakeUnlock? || PointOf(l, t).MakeSpawn?)
    ensures Inv(Next(l, t, Step(good)))
  {
    MoveCounts(l, t, PointOf(Next(l, t, Step(good)), t));
  }

  lemma LeaveKeepsInv(l: Loop, t: Token, good: bool)
    requires Inv(l) && Enabled(l, t, Step(good))
    requires Sole(PointOf(l, t)) || PointOf(l, t).PollUnlock? || PointOf(l, t).RestartUnlock?
    ensures Inv(Next(l, t, Step(good)))
  {
    MoveCounts(l, t, PointOf(Next(l, t, Step(good)), t));
    CountImplied(l.points, Sole, HoldsMutex);
    CountImplied(l.points, InRestart, Sole);
    assert At(l.points, t, HoldsMutex);
    CountSome(l.points, HoldsMutex);
  }

  lemma EnterKeepsInv(l: Loop, t: Token, good: bool)
    requires Inv(l) && Enabled(l, t, Step(good))
    requires Wants(PointOf(l, t))
    ensures Inv(Next(l, t, Step(good)))
  {
    MoveCounts(l, t, PointOf(Next(l, t, Step(good)), t));
  }

  lemma TestKeepsInv(l: Loop, t: Token, good: bool)
    requires Inv(l) && Enabled(l, t, Step(good))
    requires var p := PointOf(l, t); p.PollLocked? || p.RestartLocked? || p.MakeLocked? || p.MakeGuarded?
    ensures Inv(Next(l, t, Step(good)))
  {
    MutexKeepsSoleOut(l, t);
    MoveCounts(l, t, PointOf(Next(l, t, Step(good)), t));
  }

  lemma {:induction false} RunKeepsInv(l: Loop, es: seq<(Token, Action)>)
    requires Inv(l) && IsRun(l, es)
    ensures Inv(After(l, es))
    decreases es
  {
    if es != [] {
      StepKeepsInv(l, es[0].0, es[0].1);
      RunKeepsInv(Next(l, es[0].0, es[0].1), es[1..]);
    }
  }

  lemma ReachableInv(l: Loop)
    requires Reachable(l)
    ensures Inv(l)
  {
    var es :| IsRun(INITIAL, es) && After(INITIAL, es) == l;
    InitialInv();
    RunKeepsInv(INITIAL, es);
  }

  // --- Safety -----------------------------------------------------------------------------

  /** The loop is restarted only while it is stopped and nobody is inside it, and no
      second restart is under way. */
  lemma RestartIsAlone(l: Loop, t: Token, u: Token)
    requires Reachable(l) && InRestart(PointOf(l, t)) && t != u
    ensures l.stopped
    ensures !Inside(PointOf(l, u)) && !InWorkerLoop(PointOf(l, u)) && !InRestart(PointOf(l, u))
  {
    ReachableInv(l);
    assert At(l.points, t, InRestart) && At(l.points, t, Sole);
    CountSome(l.points, InRestart);
    SoleIsAlone(l, t, u);
  }

  /** While a script thread polls by hand, no worker is in its loop and nobody else
      polls by hand. */
  lemma ManualPollIsAlone(l: Loop, t: Token, u: Token)
    requires Reachable(l) && PointOf(l, t).PollInside? && t != u
    ensures !InWorkerLoop(PointOf(l, u)) && !PointOf(l, u).PollInside? && !InRestart(PointOf(l, u))
  {
    ReachableInv(l);
    SoleIsAlone(l, t, u);
  }

  lemma SoleIsAlone(l: Loop, t: Token, u: Token)
    requires Inv(l) && Sole(PointOf(l, t)) && t != u
    ensures l.executors == 0 && !Counted(PointOf(l, u)) && !Sole(PointOf(l, u))
  {
    assert At(l.points, t, Sole);
    CountSome(l.points, Sole);
    CountSome(l.points, Counted);
    if Counted(PointOf(l, u)) {
      assert At(l.points, u, Counted);
    }
    if Sole(PointOf(l, u)) {
      CountTwo(l.points, t, u, HoldsMutex);
    }
  }

  /** The counter is the number of workers between construction and exit, including
      those whose thread could not be started; it never underflows, and returns
      to zero when all of them are gone. */
  lemma WorkersCounted(l: Loop)
    requires Reachable(l)
    ensures l.executors == |set t | t in l.points && Counted(l.points[t])|
    ensures forall t :: Counted(PointOf(l, t)) ==> l.executors > 0
    ensures (forall t :: !Counted(PointOf(l, t))) ==> l.executors == 0
    ensures (forall t :: PointOf(l, t) == Idle) ==> !l.locked
  {
    ReachableInv(l);
    assert Members(l.points, Counted) == set t | t in l.points && Counted(l.points[t]);
    CountSome(l.points, Counted);
    CountSome(l.points, HoldsMutex);
    forall t | Counted(PointOf(l, t)) ensures l.executors > 0 {
      assert At(l.points, t, Counted);
    }
    if forall t :: !Counted(PointOf(l, t)) {
      forall t ensures !At(l.points, t, Counted) {
        assert !Counted(PointOf(l, t));
      }
    }
    if forall t :: PointOf(l, t) == Idle {
      forall t ensures !At(l.points, t, HoldsMutex) {
        assert PointOf(l, t) == Idle;
      }
    }
  }

  /** The mutex is never lost: whoever waits for it can take it, or somebody holds it
      who can move on by its own steps. */
  lemma MutexIsLive(l: Loop, t: Token)
    requires Reachable(l) && Wants(PointOf(l, t))
    ensures Enabled(l, t, Step(true))
         || exists u :: HoldsMutex(PointOf(l, u)) && Enabled(l, u, Step(true))
  {
    ReachableInv(l);
    if l.locked {
      CountSome(l.points, HoldsMutex);
      var u :| At(l.points, u, HoldsMutex);
      assert HoldsMutex(PointOf(l, u)) && Enabled(l, u, Step(true));
    }
  }

  // --- What the functions do -------------------------------------------------------------

  /** A worker leaves its loop only because it was destroyed or a handler threw.  As
      long as neither happens it goes on: drain, test, run, and again. */
  lemma WorkerStep(l: Loop, t: Token, u: Token, a: Action)
    requires Enabled(l, u, a) && InWorkerLoop(PointOf(l, t)) && t !in l.quit
    ensures var p, p' := PointOf(l, t), PointOf(Next(l, u, a), t);
            if u != t || !a.Step? then p' == p
            else if a == Step(true) || p.WorkCheck? then
              p' == (match p case WorkPoll => WorkCheck case WorkCheck => WorkRun case _ => WorkPoll)
            else p' == WorkExit
  {
  }

  lemma {:induction false} WorkerGoesOn(l: Loop, es: seq<(Token, Action)>, t: Token)
    requires IsRun(l, es) && InWorkerLoop(PointOf(l, t)) && t !in l.quit
    requires forall k | 0 <= k < |es| :: es[k] != (t, Destroy) && es[k] != (t, Step(false))
    ensures InWorkerLoop(PointOf(After(l, es), t)) && t !in After(l, es).quit
    decreases es
  {
    if es != [] {
      assert es[0] != (t, Destroy) && es[0] != (t, Step(false));
      WorkerStep(l, t, es[0].0, es[0].1);
      WorkerGoesOn(Next(l, es[0].0, es[0].1), es[1..], t);
    }
  }

  /** The own steps that a destroyed worker still has to take. */
  function StepsLeft(p: Point): nat {
    match p case WorkRun => 4 case WorkPoll => 3 case WorkCheck => 2 case WorkExit => 1 case _ => 0
  }

  function Steps(es: seq<(Token, Action)>, t: Token): nat {
    if es == [] then 0 else One(es[0].0 == t && es[0].1.Step?) + Steps(es[1..], t)
  }

  predicate Ending(p: Point) { InWorkerLoop(p) || p.WorkExit? }

  lemma DestroyedStep(l: Loop, t: Token, u: Token, a: Action)
    requires Enabled(l, u, a) && Ending(PointOf(l, t)) && t in l.quit
    ensures var p, p' := PointOf(l, t), PointOf(Next(l, u, a), t);
            && t in Next(l, u, a).quit
            && (Ending(p') || p' == Idle)
            && StepsLeft(p') + One(u == t && a.Step?) <= StepsLeft(p)
            && (p'.WorkRun? ==> p.WorkRun?)
            && (u == t && p.WorkCheck? ==> p' == WorkExit || !a.Step?)
            && (p' == Idle ==> p.WorkExit?)
  {
    if u == t && a.Step? {
      DestroyedOwnStep(l, t, a.good);
    }
  }

  lemma DestroyedOwnStep(l: Loop, t: Token, good: bool)
    requires Enabled(l, t, Step(good)) && Ending(PointOf(l, t)) && t in l.quit
    ensures var p, p' := PointOf(l, t), PointOf(Next(l, t, Step(good)), t);
            && (Ending(p') || p' == Idle) && StepsLeft(p') < StepsLeft(p) && p' != WorkRun
            && (p.WorkCheck? ==> p' == WorkExit) && (p' == Idle ==> p.WorkExit?)
  {
  }

  /** The worker has exited in some state of the run. */
  predicate Exits(l: Loop, es: seq<(Token, Action)>, t: Token)
    requires IsRun(l, es)
    decreases es
  {
    PointOf(l, t) == Idle || (es != [] && Exits(Next(l, es[0].0, es[0].1), es[1..], t))
  }

  lemma {:induction false} DestroyedRun(l: Loop, es: seq<(Token, Action)>, t: Token)
    requires IsRun(l, es) && Ending(PointOf(l, t)) && t in l.quit && !Exits(l, es, t)
    ensures var p, p' := PointOf(l, t), PointOf(After(l, es), t);
            Ending(p') && Steps(es, t) + StepsLeft(p') <= StepsLeft(p) && (p'.WorkRun? ==> p.WorkRun?)
    decreases es
  {
    if es != [] {
      DestroyedStep(l, t, es[0].0, es[0].1);
      DestroyedRun(Next(l, es[0].0, es[0].1), es[1..], t);
    }
  }

  /** A destroyed worker never waits for handlers again once it has left the wait, and
      is gone after at most four steps of its own, whatever the others do; so the
      destructor's join ends. */
  lemma DestroyedWorkerEnds(l: Loop, es: seq<(Token, Action)>, t: Token)
    requires IsRun(l, es) && Ending(PointOf(l, t)) && t in l.quit
    ensures Steps(es, t) >= 4 ==> Exits(l, es, t)
    ensures PointOf(l, t) != WorkRun && !Exits(l, es, t) ==> PointOf(After(l, es), t) != WorkRun
  {
    if !Exits(l, es, t) {
      DestroyedRun(l, es, t);
    }
  }

  // --- Undisturbed calls ------------------------------------------------------------------

  /** Up to `n` good steps of one thread. */
  function Advance(l: Loop, t: Token, n: nat): Loop
    decreases n
  {
    if n == 0 || !Enabled(l, t, Step(true)) then l else Advance(Next(l, t, Step(true)), t, n - 1)
  }

  lemma AdvanceOnce(l: Loop, t: Token, n: nat)
    requires n > 0 && Enabled(l, t, Step(true))
    ensures Advance(l, t, n) == Advance(Next(l, t, Step(true)), t, n - 1)
  {
  }

  /** The loop as it should be afterwards: restarted if it was idle and stopped. */
  function Restarted(l: Loop): Loop {
    l.(stopped := l.stopped && l.executors != 0)
  }

  /** `restart` restarts an idle, stopped loop, and does nothing else. */
  lemma SoloRestart(l: Loop, t: Token)
    requires PointOf(l, t) == Idle && !l.locked
    ensures var m := Advance(Next(l, t, Restart), t, 4);
            PointOf(m, t) == Idle && m.(points := l.points) == Restarted(l)
  {
    var a := Next(l, t, Restart);
    var b := Next(a, t, Step(true));
    var c := Next(b, t, Step(true));
    var d := Next(c, t, Step(true));
    AdvanceOnce(a, t, 4);
    AdvanceOnce(b, t, 3);
    AdvanceOnce(c, t, 2);
    if MayRestart(l) {
      AdvanceOnce(d, t, 1);
    }
  }

  /** `poll` runs handlers exactly when there are no workers, and leaves nothing behind. */
  lemma SoloPoll(l: Loop, t: Token)
    requires PointOf(l, t) == Idle && !l.locked
    ensures l.executors != 0 ==> Next(l, t, Poll) == l
    ensures l.executors == 0 ==>
              && PointOf(Advance(Next(l, t, Poll), t, 2), t) == PollInside
              && var m := Advance(Next(l, t, Poll), t, 4);
                 PointOf(m, t) == Idle && m.(points := l.points) == l
  {
    if l.executors == 0 {
      var a := Next(l, t, Poll);
      var b := Next(a, t, Step(true));
      var c := Next(b, t, Step(true));
      var d := Next(c, t, Step(true));
      AdvanceOnce(a, t, 2);
      AdvanceOnce(b, t, 1);
      AdvanceOnce(a, t, 4);
      AdvanceOnce(b, t, 3);
      AdvanceOnce(c, t, 2);
      AdvanceOnce(d, t, 1);
    }
  }

  /** The constructor of an executor restarts the loop if need be and counts one worker,
      whose thread begins with a poll; if the thread cannot be created, the count is
      taken back. */
  lemma SoloMake(l: Loop, t: Token)
    requires PointOf(l, t) == Idle && t !in l.quit && !l.locked
    ensures var m := Advance(Next(l, t, Make), t, if MayRestart(l) then 5 else 4);
            && PointOf(m, t) == MakeSpawn && m.(points := l.points) == Restarted(l).(executors := l.executors + 1)
            && PointOf(Next(m, t, Step(true)), t) == WorkPoll
            && var failed := Next(Next(m, t, Step(false)), t, Step(true));
               PointOf(failed, t) == Idle && failed.(points := l.points) == Restarted(l)
  {
    SoloCount(l, t);
    Spawns(Advance(Next(l, t, Make), t, if MayRestart(l) then 5 else 4), t);
  }

  lemma Spawns(m: Loop, t: Token)
    requires PointOf(m, t) == MakeSpawn && m.executors > 0
    ensures PointOf(Next(m, t, Step(true)), t) == WorkPoll
    ensures var failed := Next(Next(m, t, Step(false)), t, Step(true));
            PointOf(failed, t) == Idle && failed == m.(executors := m.executors - 1, points := failed.points)
  {
  }

  lemma SoloCount(l: Loop, t: Token)
    requires PointOf(l, t) == Idle && t !in l.quit && !l.locked
    ensures var m := Advance(Next(l, t, Make), t, if MayRestart(l) then 5 else 4);
            PointOf(m, t) == MakeSpawn && m.(points := l.points) == Restarted(l).(executors := l.executors + 1)
  {
    var a := Next(l, t, Make);
    var b := Next(a, t, Step(true));
    var c := Next(b, t, Step(true));
    var n := if MayRestart(l) then 5 else 4;
    AdvanceOnce(a, t, n);
    AdvanceOnce(b, t, n - 1);
    var d := if MayRestart(l) then Next(c, t, Step(true)) else c;
    if MayRestart(l) {
      AdvanceOnce(c, t, 3);
    }
    var e := Next(d, t, Step(true));
    AdvanceOnce(d, t, 2);
    AdvanceOnce(e, t, 1);
  }
}
