/** The drain of `safe_shutdown`, among all the calls on a socket.

    The calls take their accesses to the gate in the order of their programs.  The
    theorems about the bare gate hold of them because every run of the socket is,
    access by access, a run of its gate.
 */
module SocketDrain {
  import opened Wrappers
  import opened Tally
  import opened SocketLifecycle
  import G = SocketGate
  import D = GateDrain
  import SocketSafety

  /** The accesses to the gate that a run makes. */
  function Accesses(s: Socket, es: seq<(Token, Action)>): seq<G.Event>
    requires IsRun(s, es)
    decreases es
  {
    if es == [] then []
    else AccessIn(s, es[0].0, es[0].1) + Accesses(Next(s, es[0].0, es[0].1), es[1..])
  }

  function AccessIn(s: Socket, t: Token, a: Action): seq<G.Event>
    requires Enabled(s, t, a)
  {
    match a
    case Access => [G.Event(t, AccessOf(CallOf(s, t).prog).value)]
    case GiveUp => [G.Event(t, G.Abandon)]
    case _ => []
  }

  /** Every run of the socket is a run of its gate. */
  lemma {:induction false} RunProjects(s: Socket, es: seq<(Token, Action)>)
    requires IsRun(s, es)
    ensures G.IsRun(s.gate, Accesses(s, es))
    ensures G.After(s.gate, Accesses(s, es)) == After(s, es).gate
    decreases es
  {
    if es != [] {
      var (t, a) := es[0];
      RunProjects(Next(s, t, a), es[1..]);
      StepProjects(s, t, a);
      G.RunAppend(s.gate, AccessIn(s, t, a), Accesses(Next(s, t, a), es[1..]));
    }
  }

  lemma StepProjects(s: Socket, t: Token, a: Action)
    requires Enabled(s, t, a)
    ensures G.IsRun(s.gate, AccessIn(s, t, a))
    ensures G.After(s.gate, AccessIn(s, t, a)) == Next(s, t, a).gate
  {
    if AccessIn(s, t, a) != [] {
      var e := AccessIn(s, t, a)[0];
      assert AccessIn(s, t, a) == [e] && [e][1..] == [];
      assert G.IsRun(G.Next(s.gate, e), []);
    }
  }

  /** A call drains in every state of the run: it waits, or has got the socket and has
      not yet given it back. */
  predicate DrainsDuring(s: Socket, es: seq<(Token, Action)>, t: Token)
    requires IsRun(s, es)
    decreases es
  {
    && (CallOf(s, t).prog == SsDraining || HoldsDrain(CallOf(s, t).prog))
    && (es != [] ==> DrainsDuring(Next(s, es[0].0, es[0].1), es[1..], t))
  }

  lemma {:induction false} DrainProjects(s: Socket, es: seq<(Token, Action)>, t: Token)
    requires Inv(s) && IsRun(s, es) && DrainsDuring(s, es, t)
    ensures G.IsRun(s.gate, Accesses(s, es)) && D.DrainsDuring(s.gate, Accesses(s, es), t)
    decreases es
  {
    RunProjects(s, es);
    assert CallOk(CallOf(s, t), s.shared, G.PointOf(s.gate, t));
    if es != [] {
      var (u, a) := es[0];
      StepKeepsInv(s, u, a);
      RunProjects(Next(s, u, a), es[1..]);
      DrainProjects(Next(s, u, a), es[1..], t);
      StepProjects(s, u, a);
      if AccessIn(s, u, a) == [] {
        assert Accesses(s, es) == Accesses(Next(s, u, a), es[1..]);
      } else {
        assert Accesses(s, es)[0] == AccessIn(s, u, a)[0];
        assert Accesses(s, es)[1..] == Accesses(Next(s, u, a), es[1..]);
      }
    }
  }

  /** While `safe_shutdown` drains, however long it takes and whatever the other calls
      do: the counter is incremented at most twice and changes at most six times, no
      call becomes an active job, and as many helpful accesses as the rank said at the
      start leave a zero counter. */
  lemma ShutdownDrains(s: Socket, es: seq<(Token, Action)>, t: Token)
    requires Inv(s) && IsRun(s, es) && DrainsDuring(s, es, t)
    ensures G.IsRun(s.gate, Accesses(s, es))
    ensures D.Increments(s.gate, Accesses(s, es)) <= 2 && D.Changes(s.gate, Accesses(s, es)) <= 6
    ensures forall u :: IsJob(CallOf(After(s, es), u).prog) ==> G.Active(G.PointOf(s.gate, u))
    ensures D.Rank(s.gate) <= 6
    ensures D.Productive(s.gate, Accesses(s, es)) == D.Rank(s.gate) ==> After(s, es).gate.jobs == 0
  {
    RunProjects(s, es);
    DrainProjects(s, es, t);
    D.DrainTerminates(s.gate, Accesses(s, es), t);
    RunKeepsInv(s, es);
    forall u | IsJob(CallOf(After(s, es), u).prog) ensures G.Active(G.PointOf(s.gate, u)) {
      assert CallOk(CallOf(After(s, es), u), After(s, es).shared, G.PointOf(After(s, es).gate, u));
    }
  }

  /** And it is never stuck: as long as the counter is not zero, another call can take
      its own next access, and that access helps. */
  lemma ShutdownProgress(s: Socket, t: Token)
    requires Reachable(s) && CallOf(s, t).prog == SsDraining && s.gate.jobs > 0
    ensures exists u :: u != t && Enabled(s, u, Access) && D.Rank(Next(s, u, Access).gate) < D.Rank(s.gate)
  {
    SocketSafety.ReachableInv(s);
    assert CallOk(CallOf(s, t), s.shared, G.PointOf(s.gate, t));
    D.DrainProgress(s.gate, t);
    var e: G.Event :| D.Helps(s.gate, e, t);
    assert CallOk(CallOf(s, e.token), s.shared, G.PointOf(s.gate, e.token));
    OwnAccess(CallOf(s, e.token).prog, s.gate, e);
    assert Enabled(s, e.token, Access) && Next(s, e.token, Access).gate == G.Next(s.gate, e);
  }

  /** A call in the counter has only one access to take. */
  lemma OwnAccess(p: Prog, g: G.Gate, e: G.Event)
    requires Agrees(p, G.PointOf(g, e.token)) && G.Enabled(g, e)
    requires G.Counted(G.PointOf(g, e.token)) && !G.InExclusive(G.PointOf(g, e.token))
    ensures AccessOf(p) == Some(e.action)
  {
  }
}
