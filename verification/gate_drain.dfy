/** Draining a socket terminates.

    A drain takes the exclusive flag while I/O may still be active and then
    waits for the counter.  Begins that had passed their first check can still
    increment the counter, and begins that keep failing can go on for ever.
    Neither matters: a rank over the program points bounds everything that can
    still happen to the counter.
 */
module GateDrain {
  import opened Tally
  import opened SocketGate

  predicate AtChecked(p: Point) { p.IoChecked? }

  predicate AtCounted(p: Point) { p.IoCounted? }

  predicate AtUncount(p: Point) { p.IoUncount? }

  /** Accesses that still lie before a zero counter: a checked begin will
      increment, fail its second check and decrement; active I/O will finish. */
  function Rank(g: Gate): nat {
    3 * Count(g.points, AtChecked) + 2 * Count(g.points, AtCounted) + Count(g.points, AtUncount) + Count(g.points, Active)
  }

  /** Begins that can still increment the counter. */
  function Late(g: Gate): nat {
    Count(g.points, AtChecked)
  }

  lemma RankMove(g: Gate, t: Token, p: Point)
    ensures Count(g.points[t := p], AtChecked) == Late(g) - One(AtChecked(PointOf(g, t))) + One(AtChecked(p))
    ensures Count(g.points[t := p], AtCounted) == Count(g.points, AtCounted) - One(AtCounted(PointOf(g, t))) + One(AtCounted(p))
    ensures Count(g.points[t := p], AtUncount) == Count(g.points, AtUncount) - One(AtUncount(PointOf(g, t))) + One(AtUncount(p))
    ensures Count(g.points[t := p], Active) == Count(g.points, Active) - One(Active(PointOf(g, t))) + One(Active(p))
  {
    CountMove(g.points, t, p, AtChecked);
    CountMove(g.points, t, p, AtCounted);
    CountMove(g.points, t, p, AtUncount);
    CountMove(g.points, t, p, Active);
  }

  /** The only holder of the exclusive flag. */
  lemma SoleDrainer(g: Gate, d: Token, t: Token)
    requires Inv(g) && Draining(PointOf(g, d)) && t != d
    ensures g.exclusive && !InExclusive(PointOf(g, t))
  {
    assert At(g.points, d, InExclusive);
    CountSome(g.points, InExclusive);
    if InExclusive(PointOf(g, t)) {
      CountTwo(g.points, d, t, InExclusive);
    }
  }

  /** While a drainer owns the flag, no access raises the rank, every access that
      changes the counter lowers it, and an increment uses up a late begin. */
  lemma DrainStep(g: Gate, e: Event, d: Token)
    requires Inv(g) && Enabled(g, e)
    requires Draining(PointOf(g, d)) && Draining(PointOf(Next(g, e), d))
    ensures Rank(Next(g, e)) <= Rank(g)
    ensures Next(g, e).jobs != g.jobs ==> Rank(Next(g, e)) < Rank(g)
    ensures Late(Next(g, e)) + One(Next(g, e).jobs > g.jobs) <= Late(g)
    ensures forall t :: Active(PointOf(Next(g, e), t)) ==> Active(PointOf(g, t))
  {
    var t, p, h := e.token, PointOf(g, e.token), Next(g, e);
    if t == d {
      DrainerStep(g, e, d);
    } else {
      SoleDrainer(g, d, t);
      if h != g {
        var q := PointOf(h, t);
        assert h.points == g.points[t := q];
        RankMove(g, t, q);
        OtherStep(g, e);
        assert forall u | u != t :: PointOf(h, u) == PointOf(g, u);
      }
    }
  }

  lemma DrainerStep(g: Gate, e: Event, d: Token)
    requires Enabled(g, e) && e.token == d
    requires Draining(PointOf(g, d)) && Draining(PointOf(Next(g, e), d))
    ensures Next(g, e).jobs == g.jobs && Rank(Next(g, e)) == Rank(g) && Late(Next(g, e)) == Late(g)
    ensures forall t :: Active(PointOf(Next(g, e), t)) ==> Active(PointOf(g, t))
  {
    if Next(g, e) != g {
      RankMove(g, d, DrainHeld);
    }
  }

  function Weight(p: Point): nat {
    if p.IoChecked? then 3 else if p.IoCounted? then 2 else if p.IoUncount? || p.IoActive? then 1 else 0
  }

  /** The same, for the program point of the token that moves. */
  lemma OtherStep(g: Gate, e: Event)
    requires Inv(g) && Enabled(g, e) && g.exclusive && !InExclusive(PointOf(g, e.token))
    ensures var p, q, h := PointOf(g, e.token), PointOf(Next(g, e), e.token), Next(g, e);
            && Weight(q) <= Weight(p)
            && (h.jobs != g.jobs ==> Weight(q) < Weight(p))
            && (h.jobs > g.jobs ==> AtChecked(p))
            && (AtChecked(q) ==> AtChecked(p) && h == g)
            && (Active(q) ==> Active(p))
  {
    Accounting(g);
  }

  lemma RankBound(g: Gate)
    requires Inv(g)
    ensures Late(g) <= 2 && Rank(g) <= 6
  {
    CountDisjoint(g.points, AtChecked, AtCounted, Incrementing);
    CountDisjoint(g.points, AtUncount, Active, Decrementing);
    CountDisjoint(g.points, Incrementing, Decrementing, InIo);
    InIoBound(g);
  }

  lemma InIoBound(g: Gate)
    requires Inv(g)
    ensures Count(g.points, InIo) <= 2
  {
    SubsetSize(Members(g.points, InIo), Members(g.points, InRead) + Members(g.points, InWrite));
  }

  predicate InIo(p: Point) { InRead(p) || InWrite(p) }

  predicate Incrementing(p: Point) { p.IoChecked? || p.IoCounted? }

  predicate Decrementing(p: Point) { p.IoUncount? || p.IoActive? }

  /** Under a drainer every counted token is ranked. */
  lemma JobsBelowRank(g: Gate, d: Token)
    requires Inv(g) && Draining(PointOf(g, d))
    ensures g.jobs <= Rank(g)
  {
    var a, b, c := Members(g.points, AtCounted), Members(g.points, AtUncount), Members(g.points, Active);
    forall t | t in Members(g.points, Counted) ensures t in a + b + c {
      if t != d {
        SoleDrainer(g, d, t);
        assert PointOf(g, t) == g.points[t];
      }
    }
    SubsetSize(Members(g.points, Counted), a + b + c);
  }

  /** Another operation that stands in the counter takes an access towards zero. */
  predicate Helps(g: Gate, e: Event, d: Token) {
    && e.token != d && Enabled(g, e) && Counted(PointOf(g, e.token)) && !InExclusive(PointOf(g, e.token))
    && Rank(Next(g, e)) < Rank(g)
  }

  /** A drain that still waits is never stuck: some counted operation can take an
      access that lowers the rank. */
  lemma DrainProgress(g: Gate, d: Token)
    requires Inv(g) && Draining(PointOf(g, d)) && g.jobs > 0
    ensures exists e: Event :: Helps(g, e, d)
  {
    CountSome(g.points, Counted);
    var t :| At(g.points, t, Counted);
    SoleDrainer(g, d, t);
    var p := PointOf(g, t);
    var e := Event(t, if p.IoActive? then Finish else Step);
    var q := if p.IoActive? then IoReleasing(p.dir) else if p.IoCounted? then IoUncount(p.dir) else IoUnflag(p.dir);
    assert Next(g, e).points == g.points[t := q];
    RankMove(g, t, q);
    assert Helps(g, e, d);
  }

  // --- Whole drains -----------------------------------------------------------

  /** Token `d` drains in every state of the run. */
  predicate DrainsDuring(g: Gate, es: seq<Event>, d: Token)
    requires IsRun(g, es)
    decreases es
  {
    Draining(PointOf(g, d)) && (es != [] ==> DrainsDuring(Next(g, es[0]), es[1..], d))
  }

  function Increments(g: Gate, es: seq<Event>): nat
    requires IsRun(g, es)
    decreases es
  {
    if es == [] then 0 else One(Next(g, es[0]).jobs > g.jobs) + Increments(Next(g, es[0]), es[1..])
  }

  function Changes(g: Gate, es: seq<Event>): nat
    requires IsRun(g, es)
    decreases es
  {
    if es == [] then 0 else One(Next(g, es[0]).jobs != g.jobs) + Changes(Next(g, es[0]), es[1..])
  }

  function Productive(g: Gate, es: seq<Event>): nat
    requires IsRun(g, es)
    decreases es
  {
    if es == [] then 0 else One(Rank(Next(g, es[0])) < Rank(g)) + Productive(Next(g, es[0]), es[1..])
  }

  lemma {:induction false} DrainRun(g: Gate, es: seq<Event>, d: Token)
    requires Inv(g) && IsRun(g, es) && DrainsDuring(g, es, d)
    ensures Increments(g, es) + Late(After(g, es)) <= Late(g)
    ensures Changes(g, es) <= Productive(g, es)
    ensures Productive(g, es) + Rank(After(g, es)) <= Rank(g)
    ensures forall t :: Active(PointOf(After(g, es), t)) ==> Active(PointOf(g, t))
    ensures Draining(PointOf(After(g, es), d))
    decreases es
  {
    if es != [] {
      StepKeepsInv(g, es[0]);
      DrainStep(g, es[0], d);
      DrainRun(Next(g, es[0]), es[1..], d);
    }
  }

  /** However long a drain lasts and however many begins it meets: the counter is
      incremented at most twice and changes at most six times, no I/O that was
      not active before becomes active, and after as many productive accesses as
      the rank said at the start the counter is zero. */
  lemma DrainTerminates(g: Gate, es: seq<Event>, d: Token)
    requires Inv(g) && IsRun(g, es) && DrainsDuring(g, es, d)
    ensures Increments(g, es) <= 2
    ensures Changes(g, es) <= 6
    ensures forall t :: Active(PointOf(After(g, es), t)) ==> Active(PointOf(g, t))
    ensures Productive(g, es) <= Rank(g) <= 6
    ensures Productive(g, es) == Rank(g) ==> After(g, es).jobs == 0
  {
    RankBound(g);
    RunKeepsInv(g, es);
    DrainRun(g, es, d);
    JobsBelowRank(After(g, es), d);
  }

  /** A drain that has read zero stays the owner until it clears the flag itself,
      although the counter may rise again: nobody else becomes an owner and no
      I/O becomes active. */
  lemma {:induction false} DrainedStaysOwner(g: Gate, es: seq<Event>, d: Token)
    requires Inv(g) && IsRun(g, es) && PointOf(g, d) == DrainHeld
    requires forall e: Event | e in es :: e.token != d
    ensures PointOf(After(g, es), d) == DrainHeld && After(g, es).exclusive
    ensures forall t | t != d :: !Active(PointOf(After(g, es), t)) && !Owner(PointOf(After(g, es), t))
    decreases es
  {
    if es == [] {
      forall t | t != d ensures !Active(PointOf(g, t)) && !Owner(PointOf(g, t)) {
        MutualExclusion(g, d, t);
      }
      FlagsAreOwned(g);
    } else {
      StepKeepsInv(g, es[0]);
      StaysPut(g, es[0], d);
      DrainedStaysOwner(Next(g, es[0]), es[1..], d);
    }
  }
}
