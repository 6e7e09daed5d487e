/** Safety of a TCP socket, in every reachable state of every interleaving. */
module SocketSafety {
  import opened Wrappers
  import opened Tally
  import opened SocketLifecycle
  import G = SocketGate

  lemma ReachableInv(s: Socket)
    requires Reachable(s)
    ensures Inv(s)
  {
    var es :| IsRun(INITIAL, es) && After(INITIAL, es) == s;
    InitialInv();
    RunKeepsInv(INITIAL, es);
  }

  // --- TLS pointers -------------------------------------------------------------

  /** At every single step, an enabled socket has a live stream and a stream has a
      live context. */
  lemma PointersChained(s: Socket)
    requires Reachable(s)
    ensures s.shared.tls.enabled ==> s.shared.tls.stream.Some?
    ensures s.shared.tls.stream.Some? ==> s.shared.tls.ctx.Some?
  {
    ReachableInv(s);
    if !Whole(s.shared.tls) {
      var t :| Owns(CallOf(s, t).prog);
      assert CallOk(CallOf(s, t), s.shared, G.PointOf(s.gate, t));
    }
  }

  /** The pointers and the raw socket change only inside an exclusive or drained
      reservation, with no I/O active. */
  lemma ChangesAreOwned(s: Socket, t: Token, a: Action)
    requires Reachable(s) && Enabled(s, t, a)
    requires Next(s, t, a).shared.tls != s.shared.tls || Next(s, t, a).shared.open != s.shared.open
    ensures G.PointOf(s.gate, t) == G.ExHeld || G.PointOf(s.gate, t) == G.DrainHeld
    ensures forall u | u != t :: !G.Active(G.PointOf(s.gate, u)) && !G.Owner(G.PointOf(s.gate, u))
  {
    ReachableInv(s);
    var c := CallOf(s, t);
    var q := G.PointOf(s.gate, t);
    assert CallOk(c, s.shared, q);
    if a.Do? {
      WorkOk(c, s.shared, q, a.choice);
    } else if a.OnTimer? {
      TimeOk(c, s.shared, q, a.choice);
    }
    assert Owns(c.prog);
    forall u | u != t ensures !G.Active(G.PointOf(s.gate, u)) && !G.Owner(G.PointOf(s.gate, u)) {
      G.MutualExclusion(s.gate, t, u);
    }
  }

  /** An admitted job sees the pointers it was admitted with: none or all three,
      the stream it works on is alive, and getting the stream never throws. */
  lemma JobSeesOneStream(s: Socket, t: Token)
    requires Reachable(s) && IsJob(CallOf(s, t).prog)
    ensures CallOf(s, t).prog != JobThrew
    ensures Whole(s.shared.tls) && CallOf(s, t).prog.seen == s.shared.tls
    ensures CallOf(s, t).prog.JobOnStream? ==> s.shared.tls.stream == Some(CallOf(s, t).prog.stream)
    ensures CallOf(s, t).prog.JobOnRaw? ==> s.shared.tls == NO_TLS
  {
    ReachableInv(s);
    assert CallOk(CallOf(s, t), s.shared, G.PointOf(s.gate, t));
  }

  /** The same pointers during the whole job, whatever the other calls do. */
  lemma {:induction false} JobKeepsItsStream(s: Socket, es: seq<(Token, Action)>, t: Token)
    requires Inv(s) && IsRun(s, es) && IsJob(CallOf(s, t).prog)
    requires forall k | 0 <= k < |es| :: es[k] != (t, Access)
    ensures IsJob(CallOf(After(s, es), t).prog)
    ensures After(s, es).shared.tls == s.shared.tls
    decreases es
  {
    if es != [] {
      var (u, a) := es[0];
      JobStays(s, t, u, a);
      StepKeepsInv(s, u, a);
      JobKeepsItsStream(Next(s, u, a), es[1..], t);
    }
  }

  lemma JobStays(s: Socket, t: Token, u: Token, a: Action)
    requires Inv(s) && Enabled(s, u, a) && (u, a) != (t, Access)
    requires IsJob(CallOf(s, t).prog)
    ensures IsJob(CallOf(Next(s, u, a), t).prog) && Next(s, u, a).shared.tls == s.shared.tls
  {
    var c, q := CallOf(s, u), G.PointOf(s.gate, u);
    assert CallOk(CallOf(s, t), s.shared, G.PointOf(s.gate, t));
    assert CallOk(c, s.shared, q);
    if a.Do? {
      WorkOk(c, s.shared, q, a.choice);
      if u == t {
        JobWorkOk(c, s.shared, q, a.choice);
      } else if Owns(c.prog) {
        G.MutualExclusion(s.gate, u, t);
      }
    } else if a.OnTimer? {
      TimeOk(c, s.shared, q, a.choice);
    }
  }

  /** A handshake ends with all three pointers in place; one that had installed
      them and then failed ends with none. */
  lemma HandshakeOutcome(s: Socket, t: Token, outcome: Outcome)
    requires Reachable(s) && CallOf(s, t).prog == Leaving(Handshake, outcome)
    ensures outcome == Done ==> s.shared.tls.enabled && s.shared.tls.stream.Some? && s.shared.tls.ctx.Some?
    ensures outcome == Failed ==> s.shared.tls == NO_TLS
    ensures Whole(s.shared.tls)
  {
    ReachableInv(s);
    assert CallOk(CallOf(s, t), s.shared, G.PointOf(s.gate, t));
  }

  /** From the first installed pointer on, a handshake can only end in those two
      ways: the call stays inside `Installed` until it is `Done` or `Failed`. */
  predicate Installed(p: Prog) {
    p.HsStream? || p.HsEnable? || p.HsShake? || (p.Clear? && p.op == Handshake)
    || p == Leaving(Handshake, Done) || p == Leaving(Handshake, Failed)
  }

  lemma InstalledHandshakeEnds(s: Socket, t: Token, u: Token, a: Action)
    requires Enabled(s, u, a) && Installed(CallOf(s, t).prog)
    ensures Installed(CallOf(Next(s, u, a), t).prog)
         || (u == t && a == Access && CallOf(s, t).prog.Leaving?)
  {
  }

  /** The same over whole runs: until it gives its reservation back, a handshake that
      has installed a pointer is on its way to one of the two ends, and when it gets
      there the pointers are all in place or all gone. */
  lemma {:induction false} InstalledHandshakeRun(s: Socket, es: seq<(Token, Action)>, t: Token)
    requires Inv(s) && IsRun(s, es) && Installed(CallOf(s, t).prog)
    requires forall k | 0 <= k < |es| :: es[k] != (t, Access)
    ensures var p, tls := CallOf(After(s, es), t).prog, After(s, es).shared.tls;
            && Installed(p)
            && (p == Leaving(Handshake, Done) ==> tls.enabled && tls.stream.Some? && tls.ctx.Some?)
            && (p == Leaving(Handshake, Failed) ==> tls == NO_TLS)
    decreases es
  {
    if es == [] {
      assert CallOk(CallOf(s, t), s.shared, G.PointOf(s.gate, t));
    } else {
      var (u, a) := es[0];
      assert (u, a) != (t, Access);
      InstalledHandshakeEnds(s, t, u, a);
      StepKeepsInv(s, u, a);
      InstalledHandshakeRun(Next(s, u, a), es[1..], t);
    }
  }

  // --- safe_shutdown -----------------------------------------------------------------

  /** When `safe_shutdown` is about to return true it still owns the drained
      socket, no I/O is active, TLS is cleared, the raw socket is closed, and if
      a TLS shutdown ran, it completed without error and without timeout. */
  lemma ShutdownReturningTrue(s: Socket, t: Token)
    requires Reachable(s) && CallOf(s, t).prog == Leaving(SafeShutdown, Done)
    ensures G.PointOf(s.gate, t) == G.DrainHeld
    ensures forall u | u != t :: !G.Active(G.PointOf(s.gate, u)) && !G.Owner(G.PointOf(s.gate, u))
    ensures s.shared.tls == NO_TLS && !s.shared.open
    ensures CallOf(s, t).closing.Some? ==>
              var k := CallOf(s, t).closing.value; k.handler == Finished && k.ecOk && !k.timedOut
  {
    ReachableInv(s);
    assert CallOk(CallOf(s, t), s.shared, G.PointOf(s.gate, t));
    forall u | u != t ensures !G.Active(G.PointOf(s.gate, u)) && !G.Owner(G.PointOf(s.gate, u)) {
      G.MutualExclusion(s.gate, t, u);
    }
  }

  /** A shutdown that is still pending works on the live stream, in both orders of
      the two handlers. */
  lemma PendingShutdownHasStream(s: Socket, t: Token)
    requires Reachable(s) && CallOf(s, t).closing.Some? && !CallOf(s, t).closing.value.done
    ensures s.shared.tls.stream.Some? && s.shared.tls.stream == CallOf(s, t).closing.value.stream
    ensures G.PointOf(s.gate, t) == G.DrainHeld
  {
    ReachableInv(s);
    assert CallOk(CallOf(s, t), s.shared, G.PointOf(s.gate, t));
  }

  /** The step that destroys the stream under `safe_shutdown` comes after the
      shutdown handler has finished, or no shutdown was ever started. */
  lemma DestroyedAfterShutdown(s: Socket, t: Token, at: nat, ok: bool)
    requires Reachable(s) && CallOf(s, t).prog == Clear(SafeShutdown, at, ok)
    ensures CallOf(s, t).closing.Some?
    ensures var k := CallOf(s, t).closing.value; k.handler == Finished || (k.handler == NotStarted && !ok)
  {
    ReachableInv(s);
    assert CallOk(CallOf(s, t), s.shared, G.PointOf(s.gate, t));
  }

  /** Once the timer has marked a timeout, this call never returns true. */
  lemma TimeoutIsFinal(s: Socket, es: seq<(Token, Action)>, t: Token)
    requires Inv(s) && IsRun(s, es)
    requires CallOf(s, t).closing.Some? && CallOf(s, t).closing.value.timedOut
    ensures CallOf(After(s, es), t).prog != Leaving(SafeShutdown, Done)
  {
    StrandOrders(s, es, t);
  }

  /** One of the two handlers has begun: the shutdown handler has left its wait, or the
      timer handler has marked the timeout. */
  predicate Decided(k: Closing) {
    k.timedOut || k.handler == EcStored || k.handler == TimerCancelled || k.handler == Finished
  }

  /** The timer of call `t` never touches the raw socket during the run. */
  predicate TimerSpares(s: Socket, es: seq<(Token, Action)>, t: Token)
    requires IsRun(s, es)
    decreases es
  {
    es != [] ==>
      && (es[0].0 == t && es[0].1.OnTimer? ==> Next(s, t, es[0].1).shared == s.shared)
      && TimerSpares(Next(s, es[0].0, es[0].1), es[1..], t)
  }

  lemma DecidedStays(s: Socket, t: Token, u: Token, a: Action)
    requires Inv(s) && Enabled(s, u, a)
    requires CallOf(s, t).closing.Some? && Decided(CallOf(s, t).closing.value)
    ensures var k := CallOf(Next(s, u, a), t).closing;
            k.Some? && Decided(k.value) && k.value.timedOut == CallOf(s, t).closing.value.timedOut
    ensures u == t && a.OnTimer? && !CallOf(s, t).closing.value.timedOut ==> Next(s, u, a).shared == s.shared
  {
    assert CallOk(CallOf(s, t), s.shared, G.PointOf(s.gate, t));
    if u == t && a.Do? {
      WorkKeepsDecision(CallOf(s, t), s.shared, a.choice);
    }
  }

  lemma WorkKeepsDecision(c: Call, sh: Shared, ch: Choice)
    requires CanWork(c) && StrandOk(c, sh.tls) && c.closing.Some?
    ensures var k := Work(c, sh, ch).call.closing;
            k.Some? && k.value.(timer := c.closing.value.timer) == c.closing.value
  {
  }

  /** Both orders of the handlers on the strand, over whole runs: whichever begins first
      decides.  If the shutdown handler does, no timeout is ever marked and the timer
      does nothing; if the timer handler does, the timeout stays marked and the call
      never returns true. */
  lemma {:induction false} StrandOrders(s: Socket, es: seq<(Token, Action)>, t: Token)
    requires Inv(s) && IsRun(s, es)
    requires CallOf(s, t).closing.Some? && Decided(CallOf(s, t).closing.value)
    ensures var k, before := CallOf(After(s, es), t).closing, CallOf(s, t).closing.value;
            k.Some? && Decided(k.value) && k.value.timedOut == before.timedOut
    ensures if CallOf(s, t).closing.value.timedOut
            then CallOf(After(s, es), t).prog != Leaving(SafeShutdown, Done)
            else TimerSpares(s, es, t)
    decreases es
  {
    if es == [] {
      assert CallOk(CallOf(s, t), s.shared, G.PointOf(s.gate, t));
    } else {
      var (u, a) := es[0];
      StepKeepsInv(s, u, a);
      DecidedStays(s, t, u, a);
      StrandOrders(Next(s, u, a), es[1..], t);
    }
  }

  // --- Reservations -------------------------------------------------------------------

  /** A call outside its operation holds nothing, and with no operation under way
      the gate is as it was created: every exit path, thrown or returned, has
      released what it took. */
  lemma ExitsRelease(s: Socket, t: Token)
    requires Reachable(s)
    ensures CallOf(s, t).prog == Resting ==> G.PointOf(s.gate, t) == G.Idle
    ensures (forall u :: CallOf(s, u).prog == Resting) ==> s.gate.(points := map[]) == G.INITIAL
  {
    ReachableInv(s);
    assert CallOk(CallOf(s, t), s.shared, G.PointOf(s.gate, t));
    if forall u :: CallOf(s, u).prog == Resting {
      forall u ensures G.PointOf(s.gate, u) == G.Idle {
        assert CallOk(CallOf(s, u), s.shared, G.PointOf(s.gate, u));
      }
      G.Quiescent(s.gate);
    }
  }

  /** The two ways out of a drain clear the exclusive flag and touch nothing else,
      in particular not a counter that has risen in the meantime. */
  lemma DrainExits(s: Socket, t: Token, a: Action)
    requires Reachable(s) && Enabled(s, t, a)
    requires || (a == Access && CallOf(s, t).prog.Leaving? && CallOf(s, t).prog.op == SafeShutdown)
             || a == GiveUp
    ensures s.gate.exclusive
    ensures Next(s, t, a).gate == s.gate.(exclusive := false, points := s.gate.points[t := G.Idle])
    ensures CallOf(Next(s, t, a), t).prog == Resting
  {
    ReachableInv(s);
    assert CallOk(CallOf(s, t), s.shared, G.PointOf(s.gate, t));
    G.FlagsAreOwned(s.gate);
    assert G.InExclusive(G.PointOf(s.gate, t));
  }
}
