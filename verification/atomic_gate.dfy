/** The gate as the socket classes program it.

    The fields are the four atomics and whether the raw socket is open.  One method stands for each atomic access,
    and the begin and end operations are sequences of accesses.  Between any two
    accesses `Interfere` lets the other operations on the socket take any steps:
    the schedules that say which are parameters, so a contract holds for every
    schedule.  The ghost field `history` is the interleaving since the socket was
    created.  `Valid` says that it is a run of the gate and leads to the present
    values of the fields, so all theorems about runs speak about this class.
 */
module AtomicGate {
  import opened Tally
  import opened SocketGate

  datatype Admission = Granted | DirectionPending | ExclusivePending | JobsPending

  /** At some moment of the history, not before moment `from`, the gate was as
      `p` says. */
  ghost predicate Saw(history: seq<Event>, from: nat, p: Gate -> bool) {
    exists k :: from <= k <= |history| && IsRun(INITIAL, history[..k]) && p(After(INITIAL, history[..k]))
  }

  predicate IsExclusive(g: Gate) { g.exclusive }

  predicate HasJobs(g: Gate) { g.jobs > 0 }

  predicate HasNoJobs(g: Gate) { g.jobs == 0 }

  lemma SawLater(h: seq<Event>, more: seq<Event>, from: nat, p: Gate -> bool)
    requires Saw(h, from, p) && h <= more
    ensures Saw(more, from, p)
  {
    var k :| from <= k <= |h| && IsRun(INITIAL, h[..k]) && p(After(INITIAL, h[..k]));
    assert more[..k] == h[..k];
  }

  lemma SawEarlier(h: seq<Event>, from: nat, earlier: nat, p: Gate -> bool)
    requires Saw(h, from, p) && earlier <= from
    ensures Saw(h, earlier, p)
  {
  }

  /** The gate was as `p` says when the history was `h`. */
  lemma Witnessed(h: seq<Event>, more: seq<Event>, from: nat, p: Gate -> bool)
    requires IsRun(INITIAL, h) && from <= |h| && p(After(INITIAL, h)) && h <= more
    ensures Saw(more, from, p)
  {
    assert more[..|h|] == h;
  }

  /** Recording one access. */
  lemma Recorded(h: seq<Event>, g: Gate, e: Event)
    requires IsRun(INITIAL, h) && After(INITIAL, h) == g && Enabled(g, e)
    ensures IsRun(INITIAL, h + [e]) && After(INITIAL, h + [e]) == Next(g, e)
    ensures forall c: Closing | Reserved(h, c) :: Reserved(h + [e], c)
    ensures forall t :: Accesses(h + [e], t) == Accesses(h, t) + One(e.token == t)
  {
    forall t ensures Accesses(h + [e], t) == Accesses(h, t) + One(e.token == t) {
      OneMoreAccess(h, e, t);
    }
    RunAppend(INITIAL, h, [e]);
    forall c: Closing | Reserved(h, c) ensures Reserved(h + [e], c) {
      assert (h + [e])[..c.moment] == h[..c.moment];
    }
  }

  /** How many accesses token `t` has made. */
  ghost function Accesses(h: seq<Event>, t: Token): nat {
    |set k | 0 <= k < |h| && h[k].token == t|
  }

  lemma OneMoreAccess(h: seq<Event>, e: Event, t: Token)
    ensures Accesses(h + [e], t) == Accesses(h, t) + One(e.token == t)
  {
    var before := set k | 0 <= k < |h| && h[k].token == t;
    var after := set k | 0 <= k < |h| + 1 && (h + [e])[k].token == t;
    assert after == if e.token == t then before + {|h|} else before;
  }

  /** Access `k` was made by token `t` when the gate was as `p` says. */
  ghost predicate MadeAt(h: seq<Event>, k: nat, t: Token, p: Gate -> bool) {
    k < |h| && h[k].token == t && IsRun(INITIAL, h[..k]) && p(After(INITIAL, h[..k]))
  }

  /** All accesses of token `t` since moment `from` met a positive counter. */
  ghost predicate AllBusy(h: seq<Event>, from: nat, t: Token) {
    forall k | from <= k < |h| && h[k].token == t :: MadeAt(h, k, t, HasJobs)
  }

  /** One of them met a zero counter. */
  ghost predicate FoundZero(h: seq<Event>, from: nat, t: Token) {
    exists k :: from <= k < |h| && MadeAt(h, k, t, HasNoJobs)
  }

  /** Token `t` has asked for an exclusive reservation since moment `from`. */
  predicate Asked(h: seq<Event>, from: nat, t: Token) {
    exists k :: from <= k < |h| && h[k] == Event(t, BeginExclusive)
  }

  lemma MadeLater(h: seq<Event>, more: seq<Event>, k: nat, t: Token, p: Gate -> bool)
    requires MadeAt(h, k, t, p) && h <= more
    ensures MadeAt(more, k, t, p)
  {
    assert more[..k] == h[..k];
  }

  lemma FoundLater(h: seq<Event>, more: seq<Event>, from: nat, earlier: nat, t: Token)
    requires FoundZero(h, from, t) && h <= more && earlier <= from
    ensures FoundZero(more, earlier, t)
  {
    var k :| from <= k < |h| && MadeAt(h, k, t, HasNoJobs);
    MadeLater(h, more, k, t, HasNoJobs);
  }

  /** One more access, or accesses of others only. */
  lemma StillBusy(h: seq<Event>, more: seq<Event>, from: nat, t: Token)
    requires AllBusy(h, from, t) && h <= more
    requires forall k | |h| <= k < |more| && more[k].token == t :: MadeAt(more, k, t, HasJobs)
    ensures AllBusy(more, from, t)
  {
    forall k | from <= k < |more| && more[k].token == t ensures MadeAt(more, k, t, HasJobs) {
      if k < |h| {
        MadeLater(h, more, k, t, HasJobs);
      }
    }
  }

  /** The events of a schedule that take place, from gate `g` on. */
  function Played(g: Gate, self: Token, others: seq<Move>): seq<Event>
    decreases others
  {
    if others == [] then []
    else if others[0].Access? && others[0].event.token != self && Enabled(g, others[0].event) then
      [others[0].event] + Played(Next(g, others[0].event), self, others[1..])
    else Played(g, self, others[1..])
  }

  // --- The raw socket ----------------------------------------------------------

  /** How a call of the raw `close` goes; one that fails may leave the socket open. */
  datatype CloseResult = Closed | FailedOpen | FailedClosed

  /** Token `token` called the raw `close` when the history had length `moment`. */
  datatype Closing = Closing(token: Token, moment: nat)

  datatype Raw = Raw(open: bool, closings: seq<Closing>)

  /** The caller held an exclusive reservation at that moment. */
  ghost predicate Reserved(h: seq<Event>, c: Closing) {
    && c.moment <= |h| && IsRun(INITIAL, h[..c.moment])
    && PointOf(After(INITIAL, h[..c.moment]), c.token) == ExHeld
  }

  /** So nobody else was using the socket. */
  lemma ReservedIsAlone(h: seq<Event>, c: Closing)
    requires Reserved(h, c)
    ensures var g := After(INITIAL, h[..c.moment]);
            forall u | u != c.token :: !Active(PointOf(g, u)) && !Owner(PointOf(g, u))
  {
    var g := After(INITIAL, h[..c.moment]);
    InitialInv();
    RunKeepsInv(INITIAL, h[..c.moment]);
    forall u | u != c.token ensures !Active(PointOf(g, u)) && !Owner(PointOf(g, u)) {
      MutualExclusion(g, c.token, u);
    }
  }

  /** Token `t` has not called `close` in between, and the socket has not been closed
      without a call. */
  predicate Spares(t: Token, before: Raw, after: Raw) {
    && before.closings <= after.closings
    && (forall k | |before.closings| <= k < |after.closings| :: after.closings[k].token != t)
    && (before.open && !after.open ==> |before.closings| < |after.closings|)
  }

  /** Token `t` has called `close` in between, not before moment `from`. */
  predicate Tried(t: Token, before: Raw, after: Raw, from: nat) {
    exists k :: |before.closings| <= k < |after.closings| && after.closings[k].token == t && after.closings[k].moment >= from
  }

  lemma TriedLater(t: Token, a: Raw, b: Raw, c: Raw, from: nat, later: nat)
    requires Spares(t, a, b) && b.closings <= c.closings && from <= later
    requires forall k | |b.closings| <= k < |c.closings| && c.closings[k].token == t :: c.closings[k].moment >= later
    ensures Tried(t, a, c, from) <==> Tried(t, b, c, later)
  {
  }

  /** What the other operations do between two accesses: accesses of their own, and raw
      calls.  A UDP socket may be opened at any time. */
  datatype Move = Access(event: Event) | RawClose(token: Token, result: CloseResult) | RawOpen

  class Socket {
    var exclusiveOperation: bool
    var asyncJobs: nat
    var readOperation: bool
    var writeOperation: bool
    var points: map<Token, Point>
    var open: bool
    ghost var history: seq<Event>
    ghost var closings: seq<Closing>

    function View(): Gate
      reads this
    {
      Gate(exclusiveOperation, asyncJobs, readOperation, writeOperation, points)
    }

    function Here(t: Token): Point
      reads this
    {
      PointOf(View(), t)
    }

    /** How many accesses token `t` has made so far. */
    ghost function Own(t: Token): nat
      reads this
    {
      Accesses(history, t)
    }

    ghost function RawState(): Raw
      reads this
    {
      Raw(open, closings)
    }

    /** The history leads to the present state, and the raw socket was only ever closed
        under an exclusive reservation. */
    ghost predicate Valid()
      reads this
      ensures Valid() ==> Reachable(View())
    {
      && IsRun(INITIAL, history) && After(INITIAL, history) == View()
      && forall c | c in closings :: Reserved(history, c)
    }

    constructor ()
      ensures Valid() && View() == INITIAL && history == [] && RawState() == Raw(false, [])
    {
      open := false;
      closings := [];
      exclusiveOperation, asyncJobs, readOperation, writeOperation := false, 0, false, false;
      points := map[];
      history := [];
    }

    // --- Atomic accesses ------------------------------------------------------

    method SwapDirection(t: Token, d: Direction) returns (won: bool)
      requires Valid() && Here(t) == Idle
      modifies this`points, this`history, this`readOperation, this`writeOperation
      ensures Valid() && history == old(history) + [Event(t, BeginIo(d))]
      ensures Own(t) == old(Own(t)) + 1
      ensures won <==> !FlagOf(old(View()), d)
      ensures Here(t) == if won then IoFlagged(d) else Idle
    {
      Recorded(history, View(), Event(t, BeginIo(d)));
      won := if d == Read then !readOperation else !writeOperation;
      if won {
        if d == Read { readOperation := true; } else { writeOperation := true; }
        points := points[t := IoFlagged(d)];
      }
      history := history + [Event(t, BeginIo(d))];
    }

    method ClearDirection(t: Token, d: Direction)
      requires Valid() && (Here(t) == IoUnflag(d) || Here(t) == IoReleasing(d))
      modifies this`points, this`history, this`readOperation, this`writeOperation
      ensures Valid() && history == old(history) + [Event(t, Step)]
      ensures Own(t) == old(Own(t)) + 1
      ensures Here(t) == Idle
    {
      Recorded(history, View(), Event(t, Step));
      if d == Read { readOperation := false; } else { writeOperation := false; }
      points := points[t := Idle];
      history := history + [Event(t, Step)];
    }

    /** The first load of a begin. */
    method LoadExclusive(t: Token, d: Direction) returns (blocked: bool)
      requires Valid() && Here(t) == IoFlagged(d)
      modifies this`points, this`history
      ensures Valid() && history == old(history) + [Event(t, Step)]
      ensures Own(t) == old(Own(t)) + 1
      ensures blocked == old(View()).exclusive
      ensures Here(t) == if blocked then IoUnflag(d) else IoChecked(d)
    {
      Recorded(history, View(), Event(t, Step));
      blocked := exclusiveOperation;
      points := points[t := if blocked then IoUnflag(d) else IoChecked(d)];
      history := history + [Event(t, Step)];
    }

    /** The second load of a begin. */
    method ReloadExclusive(t: Token, d: Direction) returns (blocked: bool)
      requires Valid() && Here(t) == IoCounted(d)
      modifies this`points, this`history
      ensures Valid() && history == old(history) + [Event(t, Step)]
      ensures Own(t) == old(Own(t)) + 1
      ensures blocked == old(View()).exclusive
      ensures Here(t) == if blocked then IoUncount(d) else IoActive(d)
    {
      Recorded(history, View(), Event(t, Step));
      blocked := exclusiveOperation;
      points := points[t := if blocked then IoUncount(d) else IoActive(d)];
      history := history + [Event(t, Step)];
    }

    method IncrementJobs(t: Token, d: Direction)
      requires Valid() && Here(t) == IoChecked(d)
      modifies this`points, this`history, this`asyncJobs
      ensures Valid() && history == old(history) + [Event(t, Step)]
      ensures Own(t) == old(Own(t)) + 1
      ensures Here(t) == IoCounted(d)
    {
      Recorded(history, View(), Event(t, Step));
      asyncJobs := FetchAdd(asyncJobs);
      points := points[t := IoCounted(d)];
      history := history + [Event(t, Step)];
    }

    method TakeBackJob(t: Token, d: Direction)
      requires Valid() && Here(t) == IoUncount(d)
      modifies this`points, this`history, this`asyncJobs
      ensures Valid() && history == old(history) + [Event(t, Step)]
      ensures Own(t) == old(Own(t)) + 1
      ensures Here(t) == IoUnflag(d)
    {
      Recorded(history, View(), Event(t, Step));
      asyncJobs := FetchSub(asyncJobs);
      points := points[t := IoUnflag(d)];
      history := history + [Event(t, Step)];
    }

    method FinishJob(t: Token)
      requires Valid() && (Here(t).IoActive? || Here(t) == ExHeld)
      modifies this`points, this`history, this`asyncJobs
      ensures Valid() && history == old(history) + [Event(t, Finish)]
      ensures Own(t) == old(Own(t)) + 1
      ensures asyncJobs == old(asyncJobs) - 1
      ensures Here(t) == if old(Here(t)) == ExHeld then ExReleasing else IoReleasing(old(Here(t)).dir)
    {
      InitialInv();
      RunKeepsInv(INITIAL, history);
      Accounting(View());
      Recorded(history, View(), Event(t, Finish));
      asyncJobs := FetchSub(asyncJobs);
      points := points[t := if points[t] == ExHeld then ExReleasing else IoReleasing(points[t].dir)];
      history := history + [Event(t, Finish)];
    }

    method SwapExclusive(t: Token, draining: bool) returns (won: bool)
      requires Valid() && Here(t) == Idle
      modifies this`points, this`history, this`exclusiveOperation
      ensures Valid() && history == old(history) + [Event(t, if draining then BeginDrain else BeginExclusive)]
      ensures Own(t) == old(Own(t)) + 1
      ensures won <==> !old(View()).exclusive
      ensures Here(t) == if !won then Idle else if draining then DrainFlagged else ExFlagged
    {
      ghost var a := if draining then BeginDrain else BeginExclusive;
      Recorded(history, View(), Event(t, a));
      won := !exclusiveOperation;
      if won {
        exclusiveOperation := true;
        points := points[t := if draining then DrainFlagged else ExFlagged];
      }
      history := history + [Event(t, a)];
    }

    method SwapJobs(t: Token) returns (won: bool)
      requires Valid() && Here(t) == ExFlagged
      modifies this`points, this`history, this`asyncJobs
      ensures Valid() && history == old(history) + [Event(t, Step)]
      ensures Own(t) == old(Own(t)) + 1
      ensures won <==> old(View()).jobs == 0
      ensures Here(t) == if won then ExHeld else ExUndo
    {
      Recorded(history, View(), Event(t, Step));
      won := asyncJobs == 0;
      if won { asyncJobs := 1; }
      points := points[t := if won then ExHeld else ExUndo];
      history := history + [Event(t, Step)];
    }

    method LoadJobs(t: Token) returns (jobs: nat)
      requires Valid() && Here(t) == DrainFlagged
      modifies this`points, this`history
      ensures Valid() && history == old(history) + [Event(t, Step)]
      ensures Own(t) == old(Own(t)) + 1
      ensures jobs == old(View()).jobs
      ensures Here(t) == if jobs == 0 then DrainHeld else DrainFlagged
    {
      Recorded(history, View(), Event(t, Step));
      jobs := asyncJobs;
      if jobs == 0 { points := points[t := DrainHeld]; }
      history := history + [Event(t, Step)];
    }

    method ClearExclusive(t: Token, ghost a: Action)
      requires Valid() && Enabled(View(), Event(t, a))
      requires || (a == Step && (Here(t) == ExUndo || Here(t) == ExReleasing))
               || (a == Finish && Here(t) == DrainHeld)
               || (a == Abandon && Here(t) == DrainFlagged)
      modifies this`points, this`history, this`exclusiveOperation
      ensures Valid() && history == old(history) + [Event(t, a)]
      ensures Own(t) == old(Own(t)) + 1
      ensures Here(t) == Idle && !exclusiveOperation
    {
      Recorded(history, View(), Event(t, a));
      exclusiveOperation := false;
      points := points[t := Idle];
      history := history + [Event(t, a)];
    }

    /** A plain load of the counter by an operation that holds nothing. */
    method PeekJobs(t: Token) returns (jobs: nat)
      requires Valid() && Here(t) == Idle
      modifies this`history
      ensures Valid() && history == old(history) + [Event(t, Peek)]
      ensures Own(t) == old(Own(t)) + 1
      ensures jobs == old(View()).jobs
    {
      Recorded(history, View(), Event(t, Peek));
      jobs := asyncJobs;
      history := history + [Event(t, Peek)];
    }

    /** `sock.close()` inside a reservation. */
    method CloseRaw(t: Token, result: CloseResult) returns (ok: bool)
      requires Valid() && Here(t) == ExHeld
      modifies this`open, this`closings
      ensures Valid() && closings == old(closings) + [Closing(t, |history|)]
      ensures ok <==> result == Closed
      ensures open <==> old(open) && result == FailedOpen
    {
      assert history[..|history|] == history;
      open := open && result == FailedOpen;
      closings := closings + [Closing(t, |history|)];
      ok := result == Closed;
    }

    // --- Everybody else -------------------------------------------------------

    /** The other operations on the socket make the moves of a schedule, each one if it
        is possible at that moment. */
    method Interfere(self: Token, others: seq<Move>)
      requires Valid()
      modifies this
      ensures Valid() && history == old(history) + Played(old(View()), self, others)
      ensures Here(self) == old(Here(self)) && Own(self) == old(Own(self))
      ensures forall k | |old(history)| <= k < |history| :: history[k].token != self
      ensures Spares(self, old(RawState()), RawState())
    {
      var rest := others;
      assert history == history + [];
      while rest != []
        invariant Valid() && old(history) <= history
        invariant history + Played(View(), self, rest) == old(history) + Played(old(View()), self, others)
        invariant Here(self) == old(Here(self)) && Own(self) == old(Own(self))
        invariant forall k | |old(history)| <= k < |history| :: history[k].token != self
        invariant Spares(self, old(RawState()), RawState())
        decreases |rest|
      {
        MakeMove(self, rest[0], rest[1..]);
        rest := rest[1..];
      }
    }

    method MakeMove(self: Token, move: Move, ghost later: seq<Move>)
      requires Valid()
      modifies this
      ensures Valid() && old(history) <= history
      ensures history + Played(View(), self, later) == old(history) + Played(old(View()), self, [move] + later)
      ensures Here(self) == old(Here(self)) && Own(self) == old(Own(self))
      ensures forall k | |old(history)| <= k < |history| :: history[k].token != self
      ensures Spares(self, old(RawState()), RawState())
    {
      assert ([move] + later)[1..] == later;
      match move {
        case Access(e) =>
          if e.token != self && Enabled(View(), e) {
            TakeAccess(self, e);
          }
        case RawClose(t, result) =>
          if t != self && Here(t) == ExHeld {
            var _ := CloseRaw(t, result);
          }
        case RawOpen =>
          open := true;
      }
    }

    method TakeAccess(self: Token, e: Event)
      requires Valid() && e.token != self && Enabled(View(), e)
      modifies this`exclusiveOperation, this`asyncJobs, this`readOperation, this`writeOperation, this`points, this`history
      ensures Valid() && history == old(history) + [e] && View() == Next(old(View()), e)
      ensures Here(self) == old(Here(self)) && Own(self) == old(Own(self))
    {
      Recorded(history, View(), e);
      StaysPut(View(), e, self);
      var g := Next(View(), e);
      exclusiveOperation, asyncJobs, readOperation, writeOperation := g.exclusive, g.jobs, g.read, g.write;
      points := g.points;
      history := history + [e];
    }

    // --- begin_io_job, finish_io_job -------------------------------------------

    /** Either the token holds the reservation, or it holds nothing and the error
        names a reservation that was really there. */
    method BeginIoJob(t: Token, d: Direction, others: nat -> seq<Move>) returns (r: Admission)
      requires Valid() && Here(t) == Idle
      modifies this
      ensures Valid() && old(history) < history
      ensures Spares(t, old(RawState()), RawState())
      ensures || Own(t) == old(Own(t)) + (if r == Granted then 4 else if r == DirectionPending then 1 else 3)
              || (r == ExclusivePending && Own(t) == old(Own(t)) + 6)
      ensures Here(t) == if r == Granted then IoActive(d) else Idle
      ensures r == DirectionPending <==> FlagOf(old(View()), d)
      ensures r == ExclusivePending ==> Saw(history, |old(history)|, IsExclusive)
      ensures r != JobsPending
    {
      var won := SwapDirection(t, d);
      if !won {
        return DirectionPending;
      }
      Interfere(t, others(0));
      ghost var flagged := |history|;
      var admitted := TryOrUndo(t, d, others);
      if !admitted {
        SawEarlier(history, flagged, |old(history)|, IsExclusive);
      }
      r := if admitted then Granted else ExclusivePending;
    }

    /** The double check, and the direction flag given back when it fails. */
    method TryOrUndo(t: Token, d: Direction, others: nat -> seq<Move>) returns (ok: bool)
      requires Valid() && Here(t) == IoFlagged(d)
      modifies this
      ensures Valid() && old(history) < history
      ensures Spares(t, old(RawState()), RawState())
      ensures Own(t) == old(Own(t)) + (if ok then 3 else 2) || (!ok && Own(t) == old(Own(t)) + 5)
      ensures Here(t) == if ok then IoActive(d) else Idle
      ensures !ok ==> Saw(history, |old(history)|, IsExclusive)
    {
      ok := TryBeginIoJob(t, d, others);
      if !ok {
        ghost var before := history;
        Interfere(t, others(4));
        ClearDirection(t, d);
        SawLater(before, history, |old(history)|, IsExclusive);
      }
    }

    /** The double check around the increment. */
    method TryBeginIoJob(t: Token, d: Direction, others: nat -> seq<Move>) returns (ok: bool)
      requires Valid() && Here(t) == IoFlagged(d)
      modifies this
      ensures Valid() && old(history) < history
      ensures Spares(t, old(RawState()), RawState())
      ensures Own(t) == old(Own(t)) + (if ok then 3 else 1) || (!ok && Own(t) == old(Own(t)) + 4)
      ensures Here(t) == if ok then IoActive(d) else IoUnflag(d)
      ensures !ok ==> Saw(history, |old(history)|, IsExclusive)
    {
      var blocked := LoadExclusive(t, d);
      if blocked {
        Witnessed(old(history), history, |old(history)|, IsExclusive);
        return false;
      }
      Interfere(t, others(1));
      ghost var checked := |history|;
      ok := CountJob(t, d, others);
      if !ok {
        SawEarlier(history, checked, |old(history)|, IsExclusive);
      }
    }

    method CountJob(t: Token, d: Direction, others: nat -> seq<Move>) returns (ok: bool)
      requires Valid() && Here(t) == IoChecked(d)
      modifies this
      ensures Valid() && old(history) < history
      ensures Spares(t, old(RawState()), RawState())
      ensures Own(t) == old(Own(t)) + if ok then 2 else 3
      ensures Here(t) == if ok then IoActive(d) else IoUnflag(d)
      ensures !ok ==> Saw(history, |old(history)|, IsExclusive)
    {
      IncrementJobs(t, d);
      Interfere(t, others(2));
      ghost var counted := |history|;
      ok := ConfirmJob(t, d, others(3));
      if !ok {
        SawEarlier(history, counted, |old(history)|, IsExclusive);
      }
    }

    /** The second check, and the decrement when it fails. */
    method ConfirmJob(t: Token, d: Direction, others: seq<Move>) returns (ok: bool)
      requires Valid() && Here(t) == IoCounted(d)
      modifies this
      ensures Valid() && old(history) < history
      ensures Spares(t, old(RawState()), RawState())
      ensures Own(t) == old(Own(t)) + if ok then 1 else 2
      ensures Here(t) == if ok then IoActive(d) else IoUnflag(d)
      ensures !ok ==> Saw(history, |old(history)|, IsExclusive)
    {
      var blocked := ReloadExclusive(t, d);
      if blocked {
        Interfere(t, others);
        TakeBackJob(t, d);
        Witnessed(old(history), history, |old(history)|, IsExclusive);
      }
      ok := !blocked;
    }

    method FinishIoJob(t: Token, d: Direction, others: nat -> seq<Move>)
      requires Valid() && Here(t) == IoActive(d)
      modifies this
      ensures Valid() && old(history) < history
      ensures Spares(t, old(RawState()), RawState())
      ensures Own(t) == old(Own(t)) + 2
      ensures Here(t) == Idle
    {
      FinishJob(t);
      Interfere(t, others(0));
      ClearDirection(t, d);
    }

    // --- Exclusive operations ---------------------------------------------------

    method BeginExclusiveOperation(t: Token, others: nat -> seq<Move>) returns (r: Admission)
      requires Valid() && Here(t) == Idle
      modifies this
      ensures Valid() && old(history) < history
      ensures Spares(t, old(RawState()), RawState())
      ensures Own(t) == old(Own(t)) + if r == Granted then 2 else if r == ExclusivePending then 1 else 3
      ensures Here(t) == if r == Granted then ExHeld else Idle
      ensures history[|old(history)|] == Event(t, BeginExclusive)
      ensures r == ExclusivePending <==> old(View()).exclusive
      ensures r == JobsPending ==> Saw(history, |old(history)|, HasJobs)
      ensures r == Granted ==> Saw(history, |old(history)|, HasNoJobs)
      ensures r != DirectionPending
    {
      var won := SwapExclusive(t, false);
      if !won {
        return ExclusivePending;
      }
      Interfere(t, others(0));
      ghost var flagged := |history|;
      won := ClaimJobs(t, others(1));
      if won {
        SawEarlier(history, flagged, |old(history)|, HasNoJobs);
        return Granted;
      }
      SawEarlier(history, flagged, |old(history)|, HasJobs);
      r := JobsPending;
    }

    /** The swap of the counter, and the flag given back when it fails. */
    method ClaimJobs(t: Token, others: seq<Move>) returns (won: bool)
      requires Valid() && Here(t) == ExFlagged
      modifies this
      ensures Valid() && old(history) < history
      ensures Spares(t, old(RawState()), RawState())
      ensures Own(t) == old(Own(t)) + if won then 1 else 2
      ensures Here(t) == if won then ExHeld else Idle
      ensures won ==> Saw(history, |old(history)|, HasNoJobs)
      ensures !won ==> Saw(history, |old(history)|, HasJobs)
    {
      won := SwapJobs(t);
      if won {
        Witnessed(old(history), history, |old(history)|, HasNoJobs);
        return;
      }
      Interfere(t, others);
      ClearExclusive(t, Step);
      Witnessed(old(history), history, |old(history)|, HasJobs);
    }

    method EndExclusiveOperation(t: Token, others: nat -> seq<Move>)
      requires Valid() && Here(t) == ExHeld
      modifies this
      ensures Valid() && old(history) < history
      ensures Spares(t, old(RawState()), RawState())
      ensures Own(t) == old(Own(t)) + 2
      ensures Here(t) == Idle
    {
      FinishJob(t);
      Interfere(t, others(0));
      ClearExclusive(t, Step);
    }

    // --- safe_close of a UDP socket -------------------------------------------------

    /** Waits for the counter without taking anything, until the deadline, and then
        closes under an exclusive reservation if it gets one.  The clock reaches the
        deadline after `rounds` loads.  `result`: how the raw close goes.

        It gives up without asking for a reservation only when its last load met a
        positive counter, and then the deadline had come or the counter had been at
        zero before.  It asks for one only after a load of zero. */
    method SafeClose(t: Token, rounds: nat, result: CloseResult, others: nat -> seq<Move>)
      returns (ok: bool, closed: bool)
      requires Valid() && Here(t) == Idle
      modifies this
      ensures Valid() && old(history) <= history
      ensures Here(t) == Idle
      ensures ok <==> !old(open) || closed
      ensures closed <==> result == Closed && Tried(t, old(RawState()), RawState(), |old(history)|)
      ensures !old(open) ==> history == old(history)
      ensures Own(t) <= old(Own(t)) + rounds + 6
      ensures Tried(t, old(RawState()), RawState(), |old(history)|) ==> Asked(history, |old(history)|, t)
      ensures Asked(history, |old(history)|, t) ==> old(open) && FoundZero(history, |old(history)|, t)
      ensures Asked(history, |old(history)|, t) && !Tried(t, old(RawState()), RawState(), |old(history)|) ==>
                Saw(history, |old(history)|, HasJobs) || Saw(history, |old(history)|, IsExclusive)
      ensures old(open) && !Asked(history, |old(history)|, t) ==>
                && |history| > 0 && MadeAt(history, |history| - 1, t, HasJobs)
                && (Own(t) >= old(Own(t)) + rounds + 1 || FoundZero(history, |old(history)|, t))
    {
      if !open {
        return true, false;
      }
      var loads, jobs := WaitOut(t, rounds, others);
      if jobs > 0 {
        return false, false;
      }
      ghost var raw, moment := RawState(), |history| - 1;
      closed := CloseFoundZero(t, |old(history)|, result, (k: nat) => others(loads + 1 + k));
      ok := closed;
      TriedLater(t, old(RawState()), raw, RawState(), |old(history)|, moment);
    }

    /** The wait and the load after it. */
    method WaitOut(t: Token, rounds: nat, others: nat -> seq<Move>) returns (loads: nat, jobs: nat)
      requires Valid() && Here(t) == Idle
      modifies this
      ensures Valid() && old(history) < history && Here(t) == Idle
      ensures Spares(t, old(RawState()), RawState())
      ensures Own(t) == old(Own(t)) + loads + 1 && loads <= rounds + 1
      ensures jobs > 0 ==> loads >= rounds || FoundZero(history, |old(history)|, t)
      ensures MadeAt(history, |history| - 1, t, if jobs > 0 then HasJobs else HasNoJobs)
      ensures !Asked(history, |old(history)|, t)
    {
      loads := AwaitNoJobs(t, rounds, others);
      ghost var polled := history;
      Interfere(t, others(loads));
      ghost var waited := history;
      jobs := PeekJobs(t);
      assert history[..|waited|] == waited;
      if FoundZero(polled, |old(history)|, t) {
        FoundLater(polled, history, |old(history)|, |old(history)|, t);
      }
    }

    /** The close after a load of zero, which was the last access. */
    method CloseFoundZero(t: Token, ghost from: nat, result: CloseResult, others: nat -> seq<Move>) returns (closed: bool)
      requires Valid() && Here(t) == Idle && from < |history| && MadeAt(history, |history| - 1, t, HasNoJobs)
      modifies this
      ensures Valid() && old(history) <= history && Here(t) == Idle
      ensures Own(t) <= old(Own(t)) + 4
      ensures FoundZero(history, from, t) && Asked(history, from, t)
      ensures old(closings) <= closings
      ensures forall k | |old(closings)| <= k < |closings| && closings[k].token == t :: closings[k].moment >= |old(history)| - 1
      ensures closed <==> result == Closed && Tried(t, old(RawState()), RawState(), |old(history)| - 1)
      ensures !Tried(t, old(RawState()), RawState(), |old(history)| - 1) ==>
                Saw(history, from, HasJobs) || Saw(history, from, IsExclusive)
    {
      ghost var before := history;
      closed := Close(t, result, others);
      MadeLater(before, history, |before| - 1, t, HasNoJobs);
      TriedLater(t, old(RawState()), old(RawState()), RawState(), |before| - 1, |before|);
      if Saw(history, |before|, HasJobs) { SawEarlier(history, |before|, from, HasJobs); }
      if Saw(history, |before|, IsExclusive) { SawEarlier(history, |before|, from, IsExclusive); }
    }

    /** The two loops: poll while the counter is positive, look again, and start over
        unless it is zero.  They end before the deadline only after a load of zero. */
    method AwaitNoJobs(t: Token, rounds: nat, others: nat -> seq<Move>) returns (loads: nat)
      requires Valid() && Here(t) == Idle
      modifies this
      ensures Valid() && old(history) <= history && Here(t) == Idle
      ensures Spares(t, old(RawState()), RawState())
      ensures Own(t) == old(Own(t)) + loads && loads <= rounds + 1
      ensures loads < rounds ==> FoundZero(history, |old(history)|, t)
      ensures !Asked(history, |old(history)|, t)
    {
      loads := 0;
      var zero := false;
      while loads < rounds && !zero
        invariant Valid() && old(history) <= history && Here(t) == Idle
        invariant Spares(t, old(RawState()), RawState())
        invariant Own(t) == old(Own(t)) + loads && loads <= rounds + 1
        invariant zero ==> FoundZero(history, |old(history)|, t)
        invariant !Asked(history, |old(history)|, t)
        decreases rounds + 1 - loads
      {
        loads := PollJobs(t, loads, rounds, others);
        Interfere(t, others(loads));
        ghost var before := history;
        var jobs := PeekJobs(t);
        assert history[..|before|] == before;
        loads := loads + 1;
        zero := jobs == 0;
        assert zero ==> MadeAt(history, |before|, t, HasNoJobs);
      }
    }

    method PollJobs(t: Token, start: nat, rounds: nat, others: nat -> seq<Move>) returns (loads: nat)
      requires Valid() && Here(t) == Idle && start < rounds
      modifies this
      ensures Valid() && old(history) <= history && Here(t) == Idle
      ensures Spares(t, old(RawState()), RawState())
      ensures start < loads <= rounds && Own(t) == old(Own(t)) + loads - start
      ensures !Asked(history, |old(history)|, t)
    {
      var jobs := PeekJobs(t);
      loads := start + 1;
      while jobs > 0 && loads < rounds
        invariant Valid() && old(history) <= history && Here(t) == Idle
        invariant Spares(t, old(RawState()), RawState())
        invariant start < loads <= rounds && Own(t) == old(Own(t)) + loads - start
        invariant !Asked(history, |old(history)|, t)
        decreases rounds - loads
      {
        Interfere(t, others(loads));
        jobs := PeekJobs(t);
        loads := loads + 1;
      }
    }

    /** `close` of a UDP socket: the raw close, if there is one, happens while the token
        holds the exclusive reservation. */
    method Close(t: Token, result: CloseResult, others: nat -> seq<Move>) returns (closed: bool)
      requires Valid() && Here(t) == Idle
      modifies this
      ensures Valid() && old(history) < history
      ensures Here(t) == Idle
      ensures history[|old(history)|] == Event(t, BeginExclusive)
      ensures Own(t) == old(Own(t)) + 4 || (!Tried(t, old(RawState()), RawState(), |old(history)|) && Own(t) <= old(Own(t)) + 3)
      ensures old(closings) <= closings
      ensures forall k | |old(closings)| <= k < |closings| && closings[k].token == t :: closings[k].moment > |old(history)|
      ensures closed <==> result == Closed && Tried(t, old(RawState()), RawState(), |old(history)|)
      ensures Tried(t, old(RawState()), RawState(), |old(history)|) ==> Saw(history, |old(history)|, HasNoJobs)
      ensures !Tried(t, old(RawState()), RawState(), |old(history)|) ==>
                Saw(history, |old(history)|, HasJobs) || Saw(history, |old(history)|, IsExclusive)
    {
      var r := BeginExclusiveOperation(t, others);
      if r != Granted {
        if r == ExclusivePending {
          Witnessed(old(history), history, |old(history)|, IsExclusive);
        }
        return false;
      }
      ghost var before := history;
      closed := CloseHeld(t, result, (k: nat) => others(k + 2));
      SawLater(before, history, |old(history)|, HasNoJobs);
    }

    /** The raw close and the end of the reservation. */
    method CloseHeld(t: Token, result: CloseResult, others: nat -> seq<Move>) returns (closed: bool)
      requires Valid() && Here(t) == ExHeld
      modifies this
      ensures Valid() && old(history) < history
      ensures Here(t) == Idle
      ensures old(closings) <= closings
      ensures forall k | |old(closings)| <= k < |closings| && closings[k].token == t :: closings[k].moment >= |old(history)|
      ensures Own(t) == old(Own(t)) + 2
      ensures Tried(t, old(RawState()), RawState(), |old(history)|)
      ensures closed <==> result == Closed
    {
      Interfere(t, others(0));
      ghost var k := |closings|;
      closed := CloseRaw(t, result);
      Interfere(t, others(1));
      EndExclusiveOperation(t, (i: nat) => others(i + 2));
      assert closings[k].token == t;
    }

    // --- Draining -----------------------------------------------------------------

    method BeginDrainingExclusive(t: Token) returns (r: Admission)
      requires Valid() && Here(t) == Idle
      modifies this
      ensures Valid() && old(history) < history
      ensures Spares(t, old(RawState()), RawState())
      ensures Own(t) == old(Own(t)) + 1
      ensures r == if old(View()).exclusive then ExclusivePending else Granted
      ensures Here(t) == if r == Granted then DrainFlagged else Idle
    {
      var won := SwapExclusive(t, true);
      r := if won then Granted else ExclusivePending;
    }

    /** The drain loop of `safe_shutdown`: load the counter, and poll and yield
        while it is not zero, until the deadline.  The clock reaches the deadline
        after `rounds` rounds.  It fails only at the deadline, when all of its
        `rounds + 1` loads met a positive counter, and succeeds at the first load
        that meets zero. */
    method DrainJobs(t: Token, rounds: nat, others: nat -> seq<Move>) returns (drained: bool)
      requires Valid() && Here(t) == DrainFlagged
      modifies this
      ensures Valid() && old(history) < history
      ensures Spares(t, old(RawState()), RawState())
      ensures Here(t) == if drained then DrainHeld else DrainFlagged
      ensures Own(t) <= old(Own(t)) + rounds + 1
      ensures !drained ==> Own(t) == old(Own(t)) + rounds + 1 && AllBusy(history, |old(history)|, t)
      ensures drained ==> MadeAt(history, |history| - 1, t, HasNoJobs) && AllBusy(history[..|history| - 1], |old(history)|, t)
    {
      var round := 0;
      while true
        invariant 0 <= round <= rounds
        invariant Valid() && old(history) <= history
        invariant Spares(t, old(RawState()), RawState())
        invariant Here(t) == DrainFlagged
        invariant Own(t) == old(Own(t)) + round && AllBusy(history, |old(history)|, t)
        decreases rounds - round
      {
        ghost var before := history;
        var jobs := LoadJobs(t);
        assert history[..|before|] == before;
        if jobs == 0 {
          return true;
        }
        StillBusy(before, history, |old(history)|, t);
        if round == rounds {
          return false;
        }
        ghost var loaded := history;
        Interfere(t, others(round));
        StillBusy(loaded, history, |old(history)|, t);
        round := round + 1;
      }
    }

    method EndDrainingExclusive(t: Token)
      requires Valid() && (Here(t) == DrainHeld || Here(t) == DrainFlagged)
      modifies this
      ensures Valid() && old(history) < history
      ensures Spares(t, old(RawState()), RawState())
      ensures Own(t) == old(Own(t)) + 1
      ensures Here(t) == Idle && !exclusiveOperation
    {
      if Here(t) == DrainHeld {
        ClearExclusive(t, Finish);
      } else {
        ClearExclusive(t, Abandon);
      }
    }
  }
}
