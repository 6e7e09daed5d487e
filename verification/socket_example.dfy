/** A run in which everything goes well: the theorems about `safe_shutdown` do not
    hold merely because it never succeeds. */
module SocketExample {
  import opened Wrappers
  import opened Tally
  import opened SocketLifecycle
  import G = SocketGate

  /** Call 0, the only one, stands at a program point and a point of the gate. */
  predicate Stands(s: Socket, c: Call, q: G.Point, sh: Shared) {
    && CallOf(s, 0) == c && s.shared == sh
    && G.PointOf(s.gate, 0) == q
    && s.gate.exclusive == (q != G.Idle)
    && s.gate.jobs == One(q == G.ExHeld)
  }

  /** A set of states that holds the initial one and is closed under the steps of
      call 0.  The reachable states are such a set, and the steps below lead to the
      goal within any of them. */
  ghost predicate Closed(r: Socket -> bool) {
    r(INITIAL) && forall s, a | r(s) && Enabled(s, 0, a) :: r(Next(s, 0, a))
  }

  ghost predicate CanStand(r: Socket -> bool, c: Call, q: G.Point, sh: Shared) {
    exists s :: r(s) && Stands(s, c, q, sh)
  }

  const FINE := Choice(true, true)

  lemma {:induction false} RunAppend(s: Socket, es: seq<(Token, Action)>, e: (Token, Action))
    requires IsRun(s, es) && Enabled(After(s, es), e.0, e.1)
    ensures IsRun(s, es + [e]) && After(s, es + [e]) == Next(After(s, es), e.0, e.1)
    decreases es
  {
    if es == [] {
      assert es + [e] == [e];
    } else {
      RunAppend(Next(s, es[0].0, es[0].1), es[1..], e);
      assert (es + [e])[1..] == es[1..] + [e];
    }
  }

  lemma ReachableClosed()
    ensures Closed(Reachable)
  {
    assert IsRun(INITIAL, []) && After(INITIAL, []) == INITIAL;
    forall s, a | Reachable(s) && Enabled(s, 0, a) ensures Reachable(Next(s, 0, a)) {
      var es :| IsRun(INITIAL, es) && After(INITIAL, es) == s;
      RunAppend(INITIAL, es, (0, a));
      assert IsRun(INITIAL, es + [(0, a)]) && After(INITIAL, es + [(0, a)]) == Next(s, 0, a);
    }
  }

  lemma Follow(r: Socket -> bool, s: Socket, a: Action) returns (s': Socket)
    requires Closed(r) && r(s) && Enabled(s, 0, a)
    ensures r(s') && s' == Next(s, 0, a)
  {
    s' := Next(s, 0, a);
  }

  /** An exclusive operation is admitted, */
  lemma Admit(r: Socket -> bool, sh: Shared, op: Purpose)
    requires Closed(r)
    requires op.Connect? || op.Handshake?
    requires EnterProg(op, sh) == Entered(op)
    requires CanStand(r, IDLE_CALL, G.Idle, sh)
    ensures CanStand(r, Call(Granted(op), None), G.ExHeld, sh)
  {
    var s :| r(s) && Stands(s, IDLE_CALL, G.Idle, sh);
    var a := Follow(r, s, Enter(op));
    assert Stands(a, Call(Entered(op), None), G.Idle, sh);
    var b := Follow(r, a, Access);
    assert Stands(b, Call(Begun(op), None), G.ExFlagged, sh);
    var c := Follow(r, b, Access);
    assert Stands(c, Call(Granted(op), None), G.ExHeld, sh);
  }

  /** and released again. */
  lemma Leave(r: Socket -> bool, sh: Shared, op: Purpose)
    requires Closed(r)
    requires (op.Connect? || op.Handshake?) && CanStand(r, Call(Leaving(op, Done), None), G.ExHeld, sh)
    ensures CanStand(r, IDLE_CALL, G.Idle, sh)
  {
    Discount(r, sh, op);
    var s :| r(s) && Stands(s, Call(Releasing(op), None), G.ExReleasing, sh);
    var a := Follow(r, s, Access);
    assert Stands(a, IDLE_CALL, G.Idle, sh);
  }

  lemma Discount(r: Socket -> bool, sh: Shared, op: Purpose)
    requires Closed(r)
    requires (op.Connect? || op.Handshake?) && CanStand(r, Call(Leaving(op, Done), None), G.ExHeld, sh)
    ensures CanStand(r, Call(Releasing(op), None), G.ExReleasing, sh)
  {
    var s :| r(s) && Stands(s, Call(Leaving(op, Done), None), G.ExHeld, sh);
    var a := Follow(r, s, Access);
    assert Stands(a, Call(Releasing(op), None), G.ExReleasing, sh);
  }

  lemma Working(r: Socket -> bool, c: Call, q: G.Point, sh: Shared, d: Call, sh': Shared)
    requires Closed(r)
    requires CanStand(r, c, q, sh) && CanWork(c) && Work(c, sh, FINE) == Effect(d, sh')
    ensures CanStand(r, d, q, sh')
  {
    var s :| r(s) && Stands(s, c, q, sh);
    var a := Follow(r, s, Do(FINE));
    assert Stands(a, d, q, sh');
  }

  const CONNECTED := Shared(true, NO_TLS, 0)
  const SECURED := Shared(true, Tls(true, Some(0), Some(0)), 1)

  lemma Connects(r: Socket -> bool)
    requires Closed(r)
    ensures CanStand(r, IDLE_CALL, G.Idle, CONNECTED)
  {
    var start := Shared(false, NO_TLS, 0);
    assert Stands(INITIAL, IDLE_CALL, G.Idle, start);
    Admit(r, start, Connect);
    Working(r, Call(Connecting, None), G.ExHeld, start, Call(Leaving(Connect, Done), None), CONNECTED);
    Leave(r, CONNECTED, Connect);
  }

  lemma Installs(r: Socket -> bool)
    requires Closed(r)
    requires CanStand(r, Call(HsEnter, None), G.ExHeld, CONNECTED)
    ensures CanStand(r, Call(HsShake(0), None), G.ExHeld, SECURED)
  {
    var a := Shared(true, NO_TLS, 1);
    var b := Shared(true, Tls(false, None, Some(0)), 1);
    var c := Shared(true, Tls(false, Some(0), Some(0)), 1);
    Working(r, Call(HsEnter, None), G.ExHeld, CONNECTED, Call(HsContext(0), None), a);
    Working(r, Call(HsContext(0), None), G.ExHeld, a, Call(HsStream(0), None), b);
    Working(r, Call(HsStream(0), None), G.ExHeld, b, Call(HsEnable(0), None), c);
    Working(r, Call(HsEnable(0), None), G.ExHeld, c, Call(HsShake(0), None), SECURED);
  }

  lemma Secures(r: Socket -> bool)
    requires Closed(r)
    ensures CanStand(r, IDLE_CALL, G.Idle, SECURED)
  {
    Connects(r);
    Admit(r, CONNECTED, Handshake);
    Installs(r);
    Working(r, Call(HsShake(0), None), G.ExHeld, SECURED, Call(Leaving(Handshake, Done), None), SECURED);
    Leave(r, SECURED, Handshake);
  }

  lemma StartsDraining(r: Socket -> bool)
    requires Closed(r)
    ensures CanStand(r, Call(SsDraining, None), G.DrainFlagged, SECURED)
  {
    Secures(r);
    var s :| r(s) && Stands(s, IDLE_CALL, G.Idle, SECURED);
    var a := Follow(r, s, Enter(SafeShutdown));
    assert Stands(a, Call(Entered(SafeShutdown), None), G.Idle, SECURED);
    var b := Follow(r, a, Access);
    assert Stands(b, Call(SsDraining, None), G.DrainFlagged, SECURED);
  }

  lemma Drains(r: Socket -> bool)
    requires Closed(r)
    ensures CanStand(r, Call(SsLook, None), G.DrainHeld, SECURED)
  {
    StartsDraining(r);
    var s :| r(s) && Stands(s, Call(SsDraining, None), G.DrainFlagged, SECURED);
    var a := Follow(r, s, Access);
    assert Stands(a, Call(SsLook, None), G.DrainHeld, SECURED);
  }

  function Shutting(h: Handler, done: bool): Closing {
    Closing(Some(0), h, Armed, true, done, false)
  }

  lemma Handles(r: Socket -> bool, h: Handler, sh: Shared)
    requires Closed(r)
    requires h == Waiting || h == EcStored || h == TimerCancelled
    requires CanStand(r, Call(SsAwait(true), Some(Shutting(h, false))), G.DrainHeld, sh)
    ensures var k := Handle(Shutting(h, false), FINE);
            CanStand(r, Call(SsAwait(true), Some(k)), G.DrainHeld, sh)
  {
    var c := Call(SsAwait(true), Some(Shutting(h, false)));
    var s :| r(s) && Stands(s, c, G.DrainHeld, sh);
    var a := Follow(r, s, OnHandler(FINE));
    assert Stands(a, Call(SsAwait(true), Some(Handle(Shutting(h, false), FINE))), G.DrainHeld, sh);
  }

  lemma ShutsDownTls(r: Socket -> bool)
    requires Closed(r)
    ensures CanStand(r, Call(SsAwait(true), Some(Shutting(Finished, true))), G.DrainHeld, SECURED)
  {
    Drains(r);
    Working(r, Call(SsLook, None), G.DrainHeld, SECURED, Call(SsStart, None), SECURED);
    var pending := Closing(Some(0), Waiting, Unarmed, true, false, false);
    Working(r, Call(SsStart, None), G.DrainHeld, SECURED, Call(SsArm, Some(pending)), SECURED);
    Working(r, Call(SsArm, Some(pending)), G.DrainHeld, SECURED, Call(SsAwait(true), Some(Shutting(Waiting, false))), SECURED);
    Handles(r, Waiting, SECURED);
    Handles(r, EcStored, SECURED);
    Handles(r, TimerCancelled, SECURED);
  }

  lemma Clears(r: Socket -> bool, k: Option<Closing>, sh: Shared)
    requires Closed(r)
    requires CanStand(r, Call(Clear(SafeShutdown, 0, true), k), G.DrainHeld, sh)
    ensures CanStand(r, Call(RawShut(SafeShutdown, true), k), G.DrainHeld, sh.(tls := NO_TLS))
  {
    var a := sh.(tls := sh.tls.(enabled := false));
    var b := a.(tls := a.tls.(stream := None));
    Working(r, Call(Clear(SafeShutdown, 0, true), k), G.DrainHeld, sh, Call(Clear(SafeShutdown, 1, true), k), a);
    Working(r, Call(Clear(SafeShutdown, 1, true), k), G.DrainHeld, a, Call(Clear(SafeShutdown, 2, true), k), b);
    Working(r, Call(Clear(SafeShutdown, 2, true), k), G.DrainHeld, b, Call(RawShut(SafeShutdown, true), k), sh.(tls := NO_TLS));
  }

  lemma Shuts(r: Socket -> bool)
    requires Closed(r)
    ensures CanStand(r, Call(Leaving(SafeShutdown, Done), Some(Shutting(Finished, true))), G.DrainHeld, Shared(false, NO_TLS, 1))
  {
    ShutsDownTls(r);
    var k := Some(Shutting(Finished, true));
    var c, d := Shared(true, NO_TLS, 1), Shared(false, NO_TLS, 1);
    Working(r, Call(SsAwait(true), k), G.DrainHeld, SECURED, Call(Clear(SafeShutdown, 0, true), k), SECURED);
    Clears(r, k, SECURED);
    Working(r, Call(RawShut(SafeShutdown, true), k), G.DrainHeld, c, Call(RawClose(SafeShutdown, true), k), c);
    Working(r, Call(RawClose(SafeShutdown, true), k), G.DrainHeld, c, Call(Leaving(SafeShutdown, Done), k), d);
  }

  /** A socket that was connected and secured can be shut down with success, after
      its asynchronous TLS shutdown has completed. */
  lemma ShutdownCanSucceed()
    ensures exists s :: Reachable(s) && CallOf(s, 0).prog == Leaving(SafeShutdown, Done) && CallOf(s, 0).closing.Some?
  {
    ReachableClosed();
    Shuts(Reachable);
    var goal := Call(Leaving(SafeShutdown, Done), Some(Shutting(Finished, true)));
    var s :| Reachable(s) && Stands(s, goal, G.DrainHeld, Shared(false, NO_TLS, 1));
  }
}
