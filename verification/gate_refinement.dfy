/** The gate refines an atomic lock.

    The lock below is what the callers of a socket rely on: in one indivisible
    step it admits one owner, or one reader and one writer.  The gate reaches
    the same effect with several separate atomic accesses.  Each access is shown
    to be one permitted step of the lock or no step at all: I/O is admitted at
    the second load of the exclusive flag, an exclusive operation at the swap of
    the counter from 0 to 1, a drain at the load of a zero counter, and every
    begin that fails is invisible.
 */
module GateRefinement {
  import opened Tally
  import opened SocketGate

  datatype Lock = Lock(owners: set<Token>, readers: set<Token>, writers: set<Token>)

  datatype LockOp = Stutter | TakeIo(dir: Direction) | GiveIo(dir: Direction) | TakeAll | GiveAll

  datatype LockEvent = LockEvent(token: Token, op: LockOp)

  function Users(l: Lock, d: Direction): set<Token> {
    match d case Read => l.readers case Write => l.writers
  }

  predicate Permitted(l: Lock, e: LockEvent) {
    match e.op
    case Stutter => true
    case TakeIo(d) => l.owners == {} && Users(l, d) == {}
    case GiveIo(d) => Users(l, d) == {e.token}
    case TakeAll => l == Lock({}, {}, {})
    case GiveAll => l.owners == {e.token}
  }

  function Perform(l: Lock, e: LockEvent): Lock {
    match e.op
    case Stutter => l
    case TakeIo(Read) => l.(readers := {e.token})
    case TakeIo(Write) => l.(writers := {e.token})
    case GiveIo(Read) => l.(readers := {})
    case GiveIo(Write) => l.(writers := {})
    case TakeAll => l.(owners := {e.token})
    case GiveAll => l.(owners := {})
  }

  // --- The abstraction --------------------------------------------------------

  predicate Reads(p: Point) { p == IoActive(Read) }

  predicate Writes(p: Point) { p == IoActive(Write) }

  function View(g: Gate): Lock {
    Lock(Members(g.points, Owner), Members(g.points, Reads), Members(g.points, Writes))
  }

  /** The lock step that an access of the gate takes. */
  function Effect(g: Gate, e: Event): LockOp {
    match PointOf(g, e.token)
    case IoCounted(d) => if e.action == Step && !g.exclusive then TakeIo(d) else Stutter
    case IoActive(d) => if e.action == Finish then GiveIo(d) else Stutter
    case ExFlagged => if e.action == Step && g.jobs == 0 then TakeAll else Stutter
    case DrainFlagged => if e.action == Step && g.jobs == 0 then TakeAll else Stutter
    case ExReleasing => if e.action == Step then GiveAll else Stutter
    case DrainHeld => if e.action == Finish then GiveAll else Stutter
    case _ => Stutter
  }

  lemma MembersMove(points: map<Token, Point>, t: Token, p: Point, kind: Point -> bool)
    ensures Members(points[t := p], kind) == if kind(p) then Members(points, kind) + {t} else Members(points, kind) - {t}
  {
  }

  lemma ViewMove(g: Gate, h: Gate, t: Token, p: Point)
    requires h.points == g.points[t := p]
    ensures View(h).owners == if Owner(p) then View(g).owners + {t} else View(g).owners - {t}
    ensures View(h).readers == if Reads(p) then View(g).readers + {t} else View(g).readers - {t}
    ensures View(h).writers == if Writes(p) then View(g).writers + {t} else View(g).writers - {t}
  {
    MembersMove(g.points, t, p, Owner);
    MembersMove(g.points, t, p, Reads);
    MembersMove(g.points, t, p, Writes);
  }

  lemma Alone(g: Gate, t: Token, kind: Point -> bool)
    requires At(g.points, t, kind) && Count(g.points, kind) <= 1
    ensures Members(g.points, kind) == {t}
  {
    assert t in Members(g.points, kind);
    forall u | u in Members(g.points, kind) ensures u == t {
      if u != t {
        CountTwo(g.points, t, u, kind);
      }
    }
  }

  /** Who can be in the view, given that token `t` holds the exclusive flag or a
      direction flag. */
  lemma OnlyHolder(g: Gate, t: Token)
    requires Inv(g)
    ensures InExclusive(PointOf(g, t)) ==> View(g).owners <= {t}
    ensures InRead(PointOf(g, t)) ==> View(g).readers <= {t}
    ensures InWrite(PointOf(g, t)) ==> View(g).writers <= {t}
  {
    CountImplied(g.points, Owner, InExclusive);
    CountImplied(g.points, Reads, InRead);
    CountImplied(g.points, Writes, InWrite);
    if InExclusive(PointOf(g, t)) { Alone(g, t, InExclusive); }
    if InRead(PointOf(g, t)) { Alone(g, t, InRead); }
    if InWrite(PointOf(g, t)) { Alone(g, t, InWrite); }
  }

  lemma NoOwnerWithoutFlag(g: Gate)
    requires Inv(g) && !g.exclusive
    ensures View(g).owners == {}
  {
    CountImplied(g.points, Owner, InExclusive);
  }

  lemma NobodyWithZeroJobs(g: Gate)
    requires Inv(g) && g.jobs == 0
    ensures View(g).readers == {} && View(g).writers == {}
  {
    CountImplied(g.points, Reads, Counted);
    CountImplied(g.points, Writes, Counted);
  }

  /** One access of the gate is one permitted step of the lock, or none. */
  lemma StepRefines(g: Gate, e: Event)
    requires Inv(g) && Enabled(g, e)
    ensures Permitted(View(g), LockEvent(e.token, Effect(g, e)))
    ensures View(Next(g, e)) == Perform(View(g), LockEvent(e.token, Effect(g, e)))
  {
    match Effect(g, e)
    case Stutter => StutterRefines(g, e);
    case TakeIo(d) => TakeIoRefines(g, e, d);
    case GiveIo(d) => GiveIoRefines(g, e, d);
    case TakeAll => TakeAllRefines(g, e);
    case GiveAll => GiveAllRefines(g, e);
  }

  lemma ViewTakesIo(g: Gate, h: Gate, t: Token, d: Direction)
    requires h.points == g.points[t := IoActive(d)]
    requires Permitted(View(g), LockEvent(t, TakeIo(d)))
    requires !PointOf(g, t).IoActive?
    ensures View(h) == Perform(View(g), LockEvent(t, TakeIo(d)))
  {
    ViewOfPoint(g, t);
    ViewMove(g, h, t, IoActive(d));
  }

  lemma ViewGivesIo(g: Gate, h: Gate, t: Token, d: Direction)
    requires h.points == g.points[t := IoReleasing(d)]
    requires Permitted(View(g), LockEvent(t, GiveIo(d)))
    requires PointOf(g, t) == IoActive(d)
    ensures View(h) == Perform(View(g), LockEvent(t, GiveIo(d)))
  {
    ViewOfPoint(g, t);
    ViewMove(g, h, t, IoReleasing(d));
  }

  lemma ViewTakesAll(g: Gate, h: Gate, t: Token, p: Point)
    requires h.points == g.points[t := p] && (p == ExHeld || p == DrainHeld)
    requires Permitted(View(g), LockEvent(t, TakeAll))
    ensures View(h) == Perform(View(g), LockEvent(t, TakeAll))
  {
    ViewMove(g, h, t, p);
  }

  lemma ViewUnmoved(g: Gate, h: Gate, t: Token, p: Point)
    requires h.points == g.points[t := p]
    requires Owner(p) == Owner(PointOf(g, t)) && Reads(p) == Reads(PointOf(g, t)) && Writes(p) == Writes(PointOf(g, t))
    ensures View(h) == View(g)
  {
    ViewOfPoint(g, t);
    ViewMove(g, h, t, p);
  }

  lemma TakeIoRefines(g: Gate, e: Event, d: Direction)
    requires Inv(g) && Enabled(g, e) && Effect(g, e) == TakeIo(d)
    ensures Permitted(View(g), LockEvent(e.token, TakeIo(d)))
    ensures View(Next(g, e)) == Perform(View(g), LockEvent(e.token, TakeIo(d)))
  {
    NoOwnerWithoutFlag(g);
    OnlyHolder(g, e.token);
    ViewOfPoint(g, e.token);
    ViewTakesIo(g, Next(g, e), e.token, d);
  }

  lemma GiveIoRefines(g: Gate, e: Event, d: Direction)
    requires Inv(g) && Enabled(g, e) && Effect(g, e) == GiveIo(d)
    ensures Permitted(View(g), LockEvent(e.token, GiveIo(d)))
    ensures View(Next(g, e)) == Perform(View(g), LockEvent(e.token, GiveIo(d)))
  {
    OnlyHolder(g, e.token);
    ViewOfPoint(g, e.token);
    ViewGivesIo(g, Next(g, e), e.token, d);
  }

  lemma TakeAllRefines(g: Gate, e: Event)
    requires Inv(g) && Enabled(g, e) && Effect(g, e) == TakeAll
    ensures Permitted(View(g), LockEvent(e.token, TakeAll))
    ensures View(Next(g, e)) == Perform(View(g), LockEvent(e.token, TakeAll))
  {
    NobodyWithZeroJobs(g);
    OnlyHolder(g, e.token);
    ViewOfPoint(g, e.token);
    ViewTakesAll(g, Next(g, e), e.token, if PointOf(g, e.token) == ExFlagged then ExHeld else DrainHeld);
  }

  lemma GiveAllRefines(g: Gate, e: Event)
    requires Inv(g) && Enabled(g, e) && Effect(g, e) == GiveAll
    ensures Permitted(View(g), LockEvent(e.token, GiveAll))
    ensures View(Next(g, e)) == Perform(View(g), LockEvent(e.token, GiveAll))
  {
    OnlyHolder(g, e.token);
    ViewOfPoint(g, e.token);
    ViewMove(g, Next(g, e), e.token, Idle);
  }

  lemma StutterRefines(g: Gate, e: Event)
    requires Enabled(g, e) && Effect(g, e) == Stutter
    ensures View(Next(g, e)) == View(g)
  {
    var h := Next(g, e);
    if h != g {
      StutterKeepsKinds(g, e);
      assert h.points == g.points[e.token := PointOf(h, e.token)];
      ViewUnmoved(g, h, e.token, PointOf(h, e.token));
    }
  }

  lemma ViewOfPoint(g: Gate, t: Token)
    ensures t in View(g).owners <==> Owner(PointOf(g, t))
    ensures t in View(g).readers <==> Reads(PointOf(g, t))
    ensures t in View(g).writers <==> Writes(PointOf(g, t))
  {
  }

  lemma StutterKeepsKinds(g: Gate, e: Event)
    requires Enabled(g, e) && Effect(g, e) == Stutter
    ensures var p, q := PointOf(g, e.token), PointOf(Next(g, e), e.token);
            Owner(p) == Owner(q) && Reads(p) == Reads(q) && Writes(p) == Writes(q)
  {
  }

  // --- Runs -------------------------------------------------------------------

  predicate IsLockRun(l: Lock, es: seq<LockEvent>)
    decreases es
  {
    es != [] ==> Permitted(l, es[0]) && IsLockRun(Perform(l, es[0]), es[1..])
  }

  function LockAfter(l: Lock, es: seq<LockEvent>): Lock
    decreases es
  {
    if es == [] then l else LockAfter(Perform(l, es[0]), es[1..])
  }

  function Effects(g: Gate, es: seq<Event>): seq<LockEvent>
    requires IsRun(g, es)
    decreases es
  {
    if es == [] then [] else [LockEvent(es[0].token, Effect(g, es[0]))] + Effects(Next(g, es[0]), es[1..])
  }

  /** Every interleaving of the gate is a run of the lock, with the same tokens
      admitted in the same order. */
  lemma {:induction false} RunRefines(g: Gate, es: seq<Event>)
    requires Inv(g) && IsRun(g, es)
    ensures IsLockRun(View(g), Effects(g, es))
    ensures View(After(g, es)) == LockAfter(View(g), Effects(g, es))
    decreases es
  {
    if es != [] {
      StepKeepsInv(g, es[0]);
      StepRefines(g, es[0]);
      RunRefines(Next(g, es[0]), es[1..]);
    }
  }

  /** What the lock is for, in all its runs. */
  predicate LockSafe(l: Lock) {
    && |l.owners| <= 1 && |l.readers| <= 1 && |l.writers| <= 1
    && (l.owners != {} ==> l.readers == {} && l.writers == {})
  }

  lemma {:induction false} LockRunSafe(l: Lock, es: seq<LockEvent>)
    requires LockSafe(l) && IsLockRun(l, es)
    ensures LockSafe(LockAfter(l, es))
    decreases es
  {
    if es != [] {
      LockRunSafe(Perform(l, es[0]), es[1..]);
    }
  }

  // --- The gate gives what the lock gives -------------------------------------

  /** No token is between two accesses. */
  ghost predicate Settled(g: Gate) {
    forall t :: var p := PointOf(g, t); p == Idle || p.IoActive? || p == ExHeld || p == DrainHeld
  }

  /** The first access of a begin and up to `n` further accesses of the same
      token, until it holds a reservation or has failed. */
  function Solo(g: Gate, t: Token, first: Action, n: nat): Gate
    requires Enabled(g, Event(t, first))
  {
    Advance(Next(g, Event(t, first)), t, n)
  }

  function Advance(g: Gate, t: Token, n: nat): Gate
    decreases n
  {
    if n == 0 || !Enabled(g, Event(t, Step)) then g else Advance(Next(g, Event(t, Step)), t, n - 1)
  }

  lemma AdvanceOnce(g: Gate, h: Gate, t: Token, n: nat)
    requires n > 0 && Enabled(g, Event(t, Step)) && h == StepFrom(g, t, PointOf(g, t))
    ensures Advance(g, t, n) == Advance(h, t, n - 1)
  {
  }

  /** The four atomics of a settled gate say what the lock says. */
  lemma SettledAtomics(g: Gate)
    requires Inv(g) && Settled(g)
    ensures g.exclusive <==> View(g).owners != {}
    ensures g.read <==> View(g).readers != {}
    ensures g.write <==> View(g).writers != {}
    ensures g.jobs == |View(g).readers| + |View(g).writers| + Count(g.points, Exclusive)
    ensures Members(g.points, Exclusive) <= View(g).owners
  {
    SameMembers(g, Owner, InExclusive);
    SameMembers(g, Reads, InRead);
    SameMembers(g, Writes, InWrite);
    SettledJobs(g);
  }

  /** Owns the socket and the counter; a drained owner has no share in the counter. */
  predicate Exclusive(p: Point) { p == ExHeld }

  predicate Holds(p: Point) { Active(p) || Exclusive(p) }

  lemma SettledJobs(g: Gate)
    requires Settled(g)
    ensures Count(g.points, Counted) == |View(g).readers| + |View(g).writers| + Count(g.points, Exclusive)
    ensures Members(g.points, Exclusive) <= View(g).owners
  {
    SameMembers(g, Counted, Holds);
    CountSum(g.points, Active, Exclusive, Holds);
    forall p: Point ensures Active(p) <==> Reads(p) || Writes(p) {
      if p.IoActive? {
        match p.dir case Read => case Write =>
      }
    }
    CountSum(g.points, Reads, Writes, Active);
    CountImplied(g.points, Exclusive, Owner);
  }

  lemma SameMembers(g: Gate, kind: Point -> bool, wide: Point -> bool)
    requires Settled(g)
    requires forall p: Point | p == Idle || p.IoActive? || p == ExHeld || p == DrainHeld :: kind(p) <==> wide(p)
    ensures Members(g.points, kind) == Members(g.points, wide)
  {
    forall t | t in g.points ensures kind(g.points[t]) <==> wide(g.points[t]) {
      assert PointOf(g, t) == g.points[t];
    }
  }

  /** A begin that meets no concurrent begin or end succeeds exactly when the
      lock permits it, and otherwise restores all four atomics. */
  lemma SoloBeginIo(g: Gate, t: Token, d: Direction)
    requires Inv(g) && Settled(g) && PointOf(g, t) == Idle
    ensures var h := Solo(g, t, BeginIo(d), 4);
            if Permitted(View(g), LockEvent(t, TakeIo(d)))
            then PointOf(h, t) == IoActive(d) && View(h) == Perform(View(g), LockEvent(t, TakeIo(d)))
            else PointOf(h, t) == Idle && h.(points := g.points) == g
  {
    SettledAtomics(g);
    if FlagOf(g, d) {
      BusyBeginIo(g, t, d);
    } else if g.exclusive {
      RefusedBeginIo(g, t, d);
    } else {
      GrantedBeginIo(g, t, d);
      ViewTakesIo(g, Solo(g, t, BeginIo(d), 4), t, d);
    }
  }

  lemma BusyBeginIo(g: Gate, t: Token, d: Direction)
    requires PointOf(g, t) == Idle && FlagOf(g, d)
    ensures Solo(g, t, BeginIo(d), 4) == g
  {
  }

  lemma RefusedBeginIo(g: Gate, t: Token, d: Direction)
    requires PointOf(g, t) == Idle && !FlagOf(g, d) && g.exclusive
    ensures var h := Solo(g, t, BeginIo(d), 4);
            PointOf(h, t) == Idle && h.(points := g.points) == g
  {
    var g1 := Move(SetFlag(g, d, true), t, IoFlagged(d));
    var g2 := Move(g1, t, IoUnflag(d));
    var g3 := Move(SetFlag(g2, d, false), t, Idle);
    AdvanceOnce(g1, g2, t, 4);
    AdvanceOnce(g2, g3, t, 3);
    assert Advance(g3, t, 2) == g3;
  }

  lemma GrantedBeginIo(g: Gate, t: Token, d: Direction)
    requires Inv(g) && PointOf(g, t) == Idle && !FlagOf(g, d) && !g.exclusive
    ensures var h := Solo(g, t, BeginIo(d), 4);
            h == SetFlag(g, d, true).(jobs := g.jobs + 1, points := g.points[t := IoActive(d)])
  {
    Accounting(g);
    assert FetchAdd(g.jobs) == g.jobs + 1;
    var g1 := Move(SetFlag(g, d, true), t, IoFlagged(d));
    var g2 := Move(g1, t, IoChecked(d));
    var g3 := Move(g2.(jobs := FetchAdd(g.jobs)), t, IoCounted(d));
    var g4 := Move(g3, t, IoActive(d));
    AdvanceOnce(g1, g2, t, 4);
    AdvanceOnce(g2, g3, t, 3);
    AdvanceOnce(g3, g4, t, 2);
    assert Advance(g4, t, 1) == g4;
    assert g4.points == g.points[t := IoActive(d)];
  }

  lemma SoloBeginExclusive(g: Gate, t: Token)
    requires Inv(g) && Settled(g) && PointOf(g, t) == Idle
    ensures var h := Solo(g, t, BeginExclusive, 2);
            if Permitted(View(g), LockEvent(t, TakeAll))
            then PointOf(h, t) == ExHeld && View(h) == Perform(View(g), LockEvent(t, TakeAll))
            else PointOf(h, t) == Idle && h.(points := g.points) == g
  {
    SettledAtomics(g);
    var h := Solo(g, t, BeginExclusive, 2);
    ExclusiveSteps(g, t);
    if !g.exclusive && g.jobs == 0 {
      ViewTakesAll(g, h, t, ExHeld);
    }
  }

  lemma ExclusiveSteps(g: Gate, t: Token)
    requires PointOf(g, t) == Idle
    ensures var h := Solo(g, t, BeginExclusive, 2);
            if g.exclusive then h == g
            else if g.jobs == 0 then h == Gate(true, 1, g.read, g.write, g.points[t := ExHeld])
            else PointOf(h, t) == Idle && h.(points := g.points) == g
  {
    if !g.exclusive {
      var g1 := Move(g.(exclusive := true), t, ExFlagged);
      var g2 := StepFrom(g1, t, ExFlagged);
      AdvanceOnce(g1, g2, t, 2);
      if g.jobs == 0 {
        assert g2.points == g.points[t := ExHeld];
      } else {
        AdvanceOnce(g2, Move(g2.(exclusive := false), t, Idle), t, 1);
      }
    }
  }

  /** The drain takes the flag exactly when nobody owns the socket.  It is then
      admitted at once exactly when the lock permits it, and otherwise keeps the
      flag and waits. */
  lemma SoloBeginDrain(g: Gate, t: Token)
    requires Inv(g) && Settled(g) && PointOf(g, t) == Idle
    ensures var h := Solo(g, t, BeginDrain, 1);
            if Permitted(View(g), LockEvent(t, TakeAll))
            then PointOf(h, t) == DrainHeld && View(h) == Perform(View(g), LockEvent(t, TakeAll))
            else if View(g).owners == {} then PointOf(h, t) == DrainFlagged && h.exclusive && View(h) == View(g)
            else h == g
  {
    SettledAtomics(g);
    if !g.exclusive {
      DrainSteps(g, t);
      if g.jobs == 0 {
        ViewTakesAll(g, Solo(g, t, BeginDrain, 1), t, DrainHeld);
      } else {
        ViewUnmoved(g, Solo(g, t, BeginDrain, 1), t, DrainFlagged);
      }
    }
  }

  lemma DrainSteps(g: Gate, t: Token)
    requires PointOf(g, t) == Idle && !g.exclusive
    ensures Solo(g, t, BeginDrain, 1)
         == g.(exclusive := true, points := g.points[t := if g.jobs == 0 then DrainHeld else DrainFlagged])
  {
  }
}
