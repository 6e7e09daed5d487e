/** The reservation gate of a socket, one atomic access at a time.

    A socket admits either one exclusive operation, or at most one read and at
    most one write.  It enforces this with four atomics and no lock: the flag
    `exclusive`, the counter `jobs` and one flag per direction.  A state here
    holds the four atomics and, for every operation token, the point its code
    has reached.  An event lets one token perform its next atomic access, so a
    run is an arbitrary interleaving of an arbitrary number of operations.
    Atomic accesses are sequentially consistent.

    The theorems of this module hold in every state of every run.
 */
module SocketGate {
  import opened Tally

  datatype Direction = Read | Write

  /** Where an operation stands between two of its atomic accesses. */
  datatype Point =
    | Idle
      // begin_io_job
    | IoFlagged(dir: Direction)    // took the direction flag
    | IoChecked(dir: Direction)    // found no exclusive operation
    | IoCounted(dir: Direction)    // incremented the counter
    | IoUncount(dir: Direction)    // must take the increment back
    | IoUnflag(dir: Direction)     // must give the direction flag back
    | IoActive(dir: Direction)     // passed the second check: holds the reservation
      // finish_io_job
    | IoReleasing(dir: Direction)  // decremented the counter
      // begin_exclusive_operation
    | ExFlagged                    // took the exclusive flag
    | ExUndo                       // counter was not zero: must give the flag back
    | ExHeld                       // moved the counter from 0 to 1: holds the reservation
      // end_exclusive_operation
    | ExReleasing                  // decremented the counter
      // begin_draining_exclusive
    | DrainFlagged                 // took the exclusive flag, waits for the counter
    | DrainHeld                    // read a zero counter: holds the reservation

  datatype Gate = Gate(exclusive: bool, jobs: nat, read: bool, write: bool, points: map<Token, Point>)

  const INITIAL := Gate(false, 0, false, false, map[])

  datatype Action =
    | BeginIo(dir: Direction)
    | BeginExclusive
    | BeginDrain
    | Step       // the next atomic access of an operation under way
    | Finish     // the first atomic access of the release
    | Abandon    // a drain gives up before it has read a zero counter
    | Peek       // a plain load of the counter outside any operation

  datatype Event = Event(token: Token, action: Action)

  function PointOf(g: Gate, t: Token): Point {
    if t in g.points then g.points[t] else Idle
  }

  function FlagOf(g: Gate, d: Direction): bool {
    match d case Read => g.read case Write => g.write
  }

  function SetFlag(g: Gate, d: Direction, b: bool): Gate {
    match d case Read => g.(read := b) case Write => g.(write := b)
  }

  function Move(g: Gate, t: Token, p: Point): Gate {
    g.(points := g.points[t := p])
  }

  /** `std::size_t` arithmetic. */
  const WORD: nat := 0x1_0000_0000_0000_0000

  function FetchAdd(n: nat): nat { (n + 1) % WORD }

  function FetchSub(n: nat): nat { if n == 0 then WORD - 1 else n - 1 }

  predicate Enabled(g: Gate, e: Event) {
    var p := PointOf(g, e.token);
    match e.action
    case BeginIo(_) => p == Idle
    case BeginExclusive => p == Idle
    case BeginDrain => p == Idle
    case Step => p != Idle && !p.IoActive? && p != ExHeld && p != DrainHeld
    case Finish => p.IoActive? || p == ExHeld || p == DrainHeld
    case Abandon => p == DrainFlagged
    case Peek => p == Idle
  }

  /** The effect of one atomic access.  A begin that loses its first
      compare-and-swap throws, which leaves the state as it was. */
  function Next(g: Gate, e: Event): Gate
    requires Enabled(g, e)
  {
    var t := e.token;
    match e.action
    case BeginIo(d) => if FlagOf(g, d) then g else Move(SetFlag(g, d, true), t, IoFlagged(d))
    case BeginExclusive => if g.exclusive then g else Move(g.(exclusive := true), t, ExFlagged)
    case BeginDrain => if g.exclusive then g else Move(g.(exclusive := true), t, DrainFlagged)
    case Step => StepFrom(g, t, PointOf(g, t))
    case Finish => Release(g, t, PointOf(g, t))
    case Abandon => Move(g.(exclusive := false), t, Idle)
    case Peek => g
  }

  function StepFrom(g: Gate, t: Token, p: Point): Gate
    requires p != Idle && !p.IoActive? && p != ExHeld && p != DrainHeld
  {
    match p
    case IoFlagged(d) => Move(g, t, if g.exclusive then IoUnflag(d) else IoChecked(d))
    case IoChecked(d) => Move(g.(jobs := FetchAdd(g.jobs)), t, IoCounted(d))
    case IoCounted(d) => Move(g, t, if g.exclusive then IoUncount(d) else IoActive(d))
    case IoUncount(d) => Move(g.(jobs := FetchSub(g.jobs)), t, IoUnflag(d))
    case IoUnflag(d) => Move(SetFlag(g, d, false), t, Idle)
    case IoReleasing(d) => Move(SetFlag(g, d, false), t, Idle)
    case ExFlagged => if g.jobs == 0 then Move(g.(jobs := 1), t, ExHeld) else Move(g, t, ExUndo)
    case ExUndo => Move(g.(exclusive := false), t, Idle)
    case ExReleasing => Move(g.(exclusive := false), t, Idle)
    case DrainFlagged => if g.jobs == 0 then Move(g, t, DrainHeld) else g
  }

  function Release(g: Gate, t: Token, p: Point): Gate
    requires p.IoActive? || p == ExHeld || p == DrainHeld
  {
    match p
    case IoActive(d) => Move(g.(jobs := FetchSub(g.jobs)), t, IoReleasing(d))
    case ExHeld => Move(g.(jobs := FetchSub(g.jobs)), t, ExReleasing)
    case DrainHeld => Move(g.(exclusive := false), t, Idle)
  }

  // --- Runs -----------------------------------------------------------------

  predicate IsRun(g: Gate, es: seq<Event>)
    decreases es
  {
    es != [] ==> Enabled(g, es[0]) && IsRun(Next(g, es[0]), es[1..])
  }

  function After(g: Gate, es: seq<Event>): Gate
    requires IsRun(g, es)
    decreases es
  {
    if es == [] then g else After(Next(g, es[0]), es[1..])
  }

  ghost predicate Reachable(g: Gate) {
    exists es :: IsRun(INITIAL, es) && After(INITIAL, es) == g
  }

  lemma {:induction false} RunAppend(g: Gate, es: seq<Event>, fs: seq<Event>)
    requires IsRun(g, es) && IsRun(After(g, es), fs)
    ensures IsRun(g, es + fs) && After(g, es + fs) == After(After(g, es), fs)
    decreases es
  {
    if es == [] {
      assert es + fs == fs;
    } else {
      RunAppend(Next(g, es[0]), es[1..], fs);
      assert (es + fs)[1..] == es[1..] + fs;
    }
  }

  /** A token moves only by its own accesses. */
  lemma StaysPut(g: Gate, e: Event, t: Token)
    requires Enabled(g, e) && e.token != t
    ensures PointOf(Next(g, e), t) == PointOf(g, t)
  {
  }

  lemma InitialReachable()
    ensures Reachable(INITIAL)
  {
    assert IsRun(INITIAL, []) && After(INITIAL, []) == INITIAL;
  }

  lemma NextReachable(g: Gate, e: Event)
    requires Reachable(g) && Enabled(g, e)
    ensures Reachable(Next(g, e))
  {
    var es :| IsRun(INITIAL, es) && After(INITIAL, es) == g;
    RunAppend(INITIAL, es, [e]);
    assert IsRun(INITIAL, es + [e]) && After(INITIAL, es + [e]) == Next(g, e);
  }

  // --- Kinds of program points ----------------------------------------------

  predicate UsesDirection(p: Point, d: Direction) {
    match p
    case IoFlagged(x) => x == d
    case IoChecked(x) => x == d
    case IoCounted(x) => x == d
    case IoUncount(x) => x == d
    case IoUnflag(x) => x == d
    case IoActive(x) => x == d
    case IoReleasing(x) => x == d
    case _ => false
  }

  /** Holds the read flag. */
  predicate InRead(p: Point) { UsesDirection(p, Read) }

  /** Holds the write flag. */
  predicate InWrite(p: Point) { UsesDirection(p, Write) }

  /** Holds the exclusive flag. */
  predicate InExclusive(p: Point) {
    p.ExFlagged? || p.ExUndo? || p.ExHeld? || p.ExReleasing? || p.DrainFlagged? || p.DrainHeld?
  }

  /** Between the increment and the decrement of the counter. */
  predicate Counted(p: Point) {
    p.IoCounted? || p.IoUncount? || p.IoActive? || p.ExHeld?
  }

  /** Past the second exclusive check and still doing I/O. */
  predicate Active(p: Point) { p.IoActive? }

  /** Owns the socket exclusively: past both swaps of an exclusive begin, or
      drained.  The owner of an exclusive operation keeps the flag one access
      longer than its counter slot. */
  predicate Owner(p: Point) { p.ExHeld? || p.ExReleasing? || p.DrainHeld? }

  // --- The invariant ----------------------------------------------------------

  /** Every flag and the counter say exactly how many tokens stand behind them,
      and an owner excludes active I/O. */
  ghost predicate Inv(g: Gate) {
    && Count(g.points, InRead) == One(g.read)
    && Count(g.points, InWrite) == One(g.write)
    && Count(g.points, InExclusive) == One(g.exclusive)
    && Count(g.points, Counted) == g.jobs
    && (Count(g.points, Owner) > 0 ==> Count(g.points, Active) == 0)
  }

  lemma CountedAtMost(g: Gate)
    ensures Count(g.points, Counted) <= Count(g.points, InRead) + Count(g.points, InWrite) + Count(g.points, InExclusive)
    ensures Count(g.points, Active) <= Count(g.points, Counted)
    ensures Count(g.points, Owner) <= Count(g.points, InExclusive)
  {
    CountCovered(g.points, Counted, InRead, InWrite, InExclusive);
    CountImplied(g.points, Active, Counted);
    CountImplied(g.points, Owner, InExclusive);
  }

  /** What one move does to the six counts. */
  lemma MoveCounts(g: Gate, t: Token, p: Point)
    ensures Count(g.points[t := p], InRead) == Count(g.points, InRead) - One(InRead(PointOf(g, t))) + One(InRead(p))
    ensures Count(g.points[t := p], InWrite) == Count(g.points, InWrite) - One(InWrite(PointOf(g, t))) + One(InWrite(p))
    ensures Count(g.points[t := p], InExclusive)
         == Count(g.points, InExclusive) - One(InExclusive(PointOf(g, t))) + One(InExclusive(p))
    ensures Count(g.points[t := p], Counted) == Count(g.points, Counted) - One(Counted(PointOf(g, t))) + One(Counted(p))
    ensures Count(g.points[t := p], Active) == Count(g.points, Active) - One(Active(PointOf(g, t))) + One(Active(p))
    ensures Count(g.points[t := p], Owner) == Count(g.points, Owner) - One(Owner(PointOf(g, t))) + One(Owner(p))
  {
    CountMove(g.points, t, p, InRead);
    CountMove(g.points, t, p, InWrite);
    CountMove(g.points, t, p, InExclusive);
    CountMove(g.points, t, p, Counted);
    CountMove(g.points, t, p, Active);
    CountMove(g.points, t, p, Owner);
  }

  lemma InitialInv()
    ensures Inv(INITIAL)
  {
  }

  lemma StepKeepsInv(g: Gate, e: Event)
    requires Inv(g) && Enabled(g, e)
    ensures Inv(Next(g, e))
  {
    var t, p := e.token, PointOf(g, e.token);
    if e.action.Finish? {
      if p.IoActive? { FinishIoKeepsInv(g, t, p); } else { FinishOwnerKeepsInv(g, t, p); }
    } else if !e.action.Step? {
      BeginKeepsInv(g, e);
    } else if p.ExFlagged? || p.DrainFlagged? {
      ClaimKeepsInv(g, t, p);
    } else if p.IoFlagged? || p.IoChecked? || p.IoCounted? {
      CheckKeepsInv(g, t, p);
    } else {
      UndoKeepsInv(g, t, p);
    }
  }

  lemma BeginKeepsInv(g: Gate, e: Event)
    requires Inv(g) && Enabled(g, e) && !e.action.Step? && !e.action.Finish?
    ensures Inv(Next(g, e))
  {
    if e.action.BeginIo? {
      BeginIoKeepsInv(g, e.token, e.action.dir);
    } else if !e.action.Peek? {
      MoveCounts(g, e.token, if e.action.BeginExclusive? then ExFlagged else if e.action.BeginDrain? then DrainFlagged else Idle);
    }
  }

  lemma BeginIoKeepsInv(g: Gate, t: Token, d: Direction)
    requires Inv(g) && PointOf(g, t) == Idle
    ensures Inv(Next(g, Event(t, BeginIo(d))))
  {
    MoveCounts(g, t, IoFlagged(d));
  }

  lemma ClaimKeepsInv(g: Gate, t: Token, p: Point)
    requires Inv(g) && p == PointOf(g, t) && (p.ExFlagged? || p.DrainFlagged?)
    ensures Inv(StepFrom(g, t, p))
  {
    CountedAtMost(g);
    MoveCounts(g, t, if p.DrainFlagged? then DrainHeld else if g.jobs == 0 then ExHeld else ExUndo);
  }

  lemma CheckKeepsInv(g: Gate, t: Token, p: Point)
    requires Inv(g) && p == PointOf(g, t) && (p.IoFlagged? || p.IoChecked? || p.IoCounted?)
    ensures Inv(StepFrom(g, t, p))
  {
    CountedAtMost(g);
    if p.IoChecked? {
      assert FetchAdd(g.jobs) == g.jobs + 1;
      MoveCounts(g, t, IoCounted(p.dir));
    } else if p.IoFlagged? {
      MoveCounts(g, t, if g.exclusive then IoUnflag(p.dir) else IoChecked(p.dir));
    } else {
      MoveCounts(g, t, if g.exclusive then IoUncount(p.dir) else IoActive(p.dir));
    }
  }

  lemma UndoKeepsInv(g: Gate, t: Token, p: Point)
    requires Inv(g) && p == PointOf(g, t)
    requires p.IoUncount? || p.IoUnflag? || p.IoReleasing? || p.ExUndo? || p.ExReleasing?
    ensures Inv(StepFrom(g, t, p))
  {
    MoveCounts(g, t, if p.IoUncount? then IoUnflag(p.dir) else Idle);
  }

  lemma FinishIoKeepsInv(g: Gate, t: Token, p: Point)
    requires Inv(g) && p == PointOf(g, t) && p.IoActive?
    ensures Inv(Release(g, t, p))
  {
    MoveCounts(g, t, IoReleasing(p.dir));
  }

  lemma FinishOwnerKeepsInv(g: Gate, t: Token, p: Point)
    requires Inv(g) && p == PointOf(g, t) && (p.ExHeld? || p.DrainHeld?)
    ensures Inv(Release(g, t, p))
  {
    MoveCounts(g, t, if p.ExHeld? then ExReleasing else Idle);
  }

  /** What the other tokens notice of a step. */
  lemma StepFrame(g: Gate, e: Event)
    requires Inv(g) && Enabled(g, e)
    ensures Inv(Next(g, e))
    ensures forall u | u != e.token :: PointOf(Next(g, e), u) == PointOf(g, u)
  {
    StepKeepsInv(g, e);
    forall u | u != e.token ensures PointOf(Next(g, e), u) == PointOf(g, u) {
      StaysPut(g, e, u);
    }
  }

  lemma {:induction false} RunKeepsInv(g: Gate, es: seq<Event>)
    requires Inv(g) && IsRun(g, es)
    ensures Inv(After(g, es))
    decreases es
  {
    if es != [] {
      StepKeepsInv(g, es[0]);
      RunKeepsInv(Next(g, es[0]), es[1..]);
    }
  }

  lemma ReachableInv(g: Gate)
    requires Reachable(g)
    ensures Inv(g)
  {
    var es :| IsRun(INITIAL, es) && After(INITIAL, es) == g;
    InitialInv();
    RunKeepsInv(INITIAL, es);
  }

  // --- What the invariant gives in every reachable state ----------------------

  /** Mutual exclusion.  While a token owns the socket exclusively, up to and
      including its last access before the flag is cleared, no other token owns
      it and no I/O is active.  I/O of one direction is active at most once. */
  lemma MutualExclusion(g: Gate, t: Token, u: Token)
    requires Inv(g) && t != u
    ensures Owner(PointOf(g, t)) ==> !Owner(PointOf(g, u)) && !Active(PointOf(g, u))
    ensures PointOf(g, t).IoActive? && PointOf(g, u).IoActive? ==> PointOf(g, t).dir != PointOf(g, u).dir
  {
    if Owner(PointOf(g, t)) {
      CountSome(g.points, Owner);
      assert At(g.points, t, Owner);
      if Owner(PointOf(g, u)) {
        CountTwo(g.points, t, u, InExclusive);
      }
      if Active(PointOf(g, u)) {
        CountSome(g.points, Active);
        assert At(g.points, u, Active);
      }
    }
    if PointOf(g, t) == IoActive(Read) == PointOf(g, u) {
      CountTwo(g.points, t, u, InRead);
    }
    if PointOf(g, t) == IoActive(Write) == PointOf(g, u) {
      CountTwo(g.points, t, u, InWrite);
    }
  }

  /** Exact accounting of the counter, which therefore neither underflows nor
      exceeds three, and exceeds two only under an exclusive flag. */
  lemma Accounting(g: Gate)
    requires Inv(g)
    ensures g.jobs == |set t | t in g.points && Counted(g.points[t])|
    ensures g.jobs <= if g.exclusive then 3 else 2
    ensures forall t :: Counted(PointOf(g, t)) ==> g.jobs > 0 && FetchSub(g.jobs) == g.jobs - 1
  {
    CountedAtMost(g);
    assert Members(g.points, Counted) == set t | t in g.points && Counted(g.points[t]);
    forall t | Counted(PointOf(g, t)) ensures g.jobs > 0 {
      assert At(g.points, t, Counted);
      CountSome(g.points, Counted);
    }
  }

  /** With no operation under way the gate is as it was created. */
  lemma Quiescent(g: Gate)
    requires Inv(g)
    requires forall t :: PointOf(g, t) == Idle
    ensures g.(points := map[]) == INITIAL
  {
    forall k | k == InRead || k == InWrite || k == InExclusive || k == Counted
      ensures Count(g.points, k) == 0
    {
      CountSome(g.points, k);
      forall t ensures !At(g.points, t, k) {
        assert PointOf(g, t) == Idle;
      }
    }
  }

  /** A flag is set exactly when some token stands behind it. */
  lemma FlagsAreOwned(g: Gate)
    requires Inv(g)
    ensures g.exclusive <==> exists t :: InExclusive(PointOf(g, t))
    ensures forall d :: FlagOf(g, d) <==> exists t :: UsesDirection(PointOf(g, t), d)
  {
    CountSome(g.points, InExclusive);
    CountSome(g.points, InRead);
    CountSome(g.points, InWrite);
    assert forall t :: At(g.points, t, InExclusive) <==> InExclusive(PointOf(g, t));
    assert forall t :: At(g.points, t, InRead) <==> UsesDirection(PointOf(g, t), Read);
    assert forall t :: At(g.points, t, InWrite) <==> UsesDirection(PointOf(g, t), Write);
    forall d ensures FlagOf(g, d) <==> exists t :: UsesDirection(PointOf(g, t), d) {
      match d case Read => case Write =>
    }
  }

  // --- The UDP socket ---------------------------------------------------------

  predicate Draining(p: Point) { p.DrainFlagged? || p.DrainHeld? }

  /** The UDP socket has the same accesses but no drain: its runs are the runs
      without `BeginDrain`, and nobody ever stands at a drain point. */
  lemma {:induction false} UdpNeverDrains(g: Gate, es: seq<Event>)
    requires IsRun(g, es)
    requires forall e | e in es :: e.action != BeginDrain
    requires forall t :: !Draining(PointOf(g, t))
    ensures forall t :: !Draining(PointOf(After(g, es), t))
    decreases es
  {
    if es != [] {
      assert es[0] in es;
      var h := Next(g, es[0]);
      forall t ensures !Draining(PointOf(h, t)) {
        if t == es[0].token {
          StartsNoDrain(g, es[0]);
        } else {
          StaysPut(g, es[0], t);
        }
      }
      UdpNeverDrains(h, es[1..]);
    }
  }

  lemma StartsNoDrain(g: Gate, e: Event)
    requires Enabled(g, e) && e.action != BeginDrain && !Draining(PointOf(g, e.token))
    ensures !Draining(PointOf(Next(g, e), e.token))
  {
  }

  // --- Tightness: what the implementation does allow --------------------------

  /** Three counted tokens: two begins that passed their first check before an
      exclusive operation took the flag and the zero counter. */
  lemma ThreeJobsReachable()
    ensures exists g :: Reachable(g) && g.jobs == 3 && Owner(PointOf(g, 2))
  {
    var g := Checked(Read, 0, INITIAL);
    var h := Checked(Write, 1, g);
    var i := TakenOver(h, 2);
    var j := Follow(i, Event(0, Step));
    var k := Follow(j, Event(1, Step));
    assert k.jobs == 3 && PointOf(k, 2) == ExHeld;
  }

  /** A drained gate whose counter has risen again: a begin that had passed its
      first check before the drain.  It will have to undo. */
  lemma CounterMayRiseAfterDrain()
    ensures exists g :: Reachable(g) && PointOf(g, 1) == DrainHeld && g.jobs == 1
  {
    var g := Checked(Read, 0, INITIAL);
    var h := Follow(g, Event(1, BeginDrain));
    var i := Follow(h, Event(1, Step));
    var j := Follow(i, Event(0, Step));
    assert PointOf(j, 1) == DrainHeld && j.jobs == 1;
  }

  /** A zero counter does not mean that the exclusive flag is free. */
  lemma ZeroCounterUnderFlag()
    ensures exists g :: Reachable(g) && g.jobs == 0 && g.exclusive && PointOf(g, 0) == ExReleasing
  {
    InitialReachable();
    var g := Follow(INITIAL, Event(0, BeginExclusive));
    var h := Follow(g, Event(0, Step));
    var i := Follow(h, Event(0, Finish));
    assert i.jobs == 0 && i.exclusive && PointOf(i, 0) == ExReleasing;
  }

  lemma Follow(g: Gate, e: Event) returns (h: Gate)
    requires Reachable(g) && Enabled(g, e)
    ensures Reachable(h) && h == Next(g, e)
  {
    NextReachable(g, e);
    h := Next(g, e);
  }

  lemma TakenOver(g: Gate, t: Token) returns (h: Gate)
    requires Reachable(g) && !g.exclusive && g.jobs == 0 && PointOf(g, t) == Idle
    ensures Reachable(h) && h == Gate(true, 1, g.read, g.write, g.points[t := ExHeld])
  {
    h := Follow(g, Event(t, BeginExclusive));
    h := Follow(h, Event(t, Step));
    assert h.points == g.points[t := ExHeld];
  }

  lemma Checked(d: Direction, t: Token, g: Gate) returns (h: Gate)
    requires Reachable(g) || g == INITIAL
    requires !g.exclusive && !FlagOf(g, d) && PointOf(g, t) == Idle
    ensures Reachable(h) && h == Move(SetFlag(g, d, true), t, IoChecked(d))
  {
    InitialReachable();
    h := Follow(g, Event(t, BeginIo(d)));
    h := Follow(h, Event(t, Step));
    assert h.points == g.points[t := IoChecked(d)];
  }
}
