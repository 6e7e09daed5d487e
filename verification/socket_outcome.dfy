/** How the calls on a socket end.

    The outcome of a call is compared with what happened to it: the choices of the
    network and of OpenSSL at its own steps, at its shutdown handler and at its
    timer.  Nothing here looks at the flags in which the program keeps track.
 */
module SocketOutcome {
  import opened Wrappers
  import opened Tally
  import opened SocketLifecycle
  import G = SocketGate
  import SocketSafety

  // --- What a call is for --------------------------------------------------------

  /** What the program at point `p` was called for; `q` is its point of the gate. */
  function PurposeOf(p: Prog, q: G.Point): Option<Purpose> {
    match p
    case Resting => None
    case Entered(op) => Some(op)
    case Begun(op) => Some(op)
    case Releasing(op) => Some(op)
    case Connecting => Some(Connect)
    case HsEnter => Some(Handshake)
    case HsContext(_) => Some(Handshake)
    case HsStream(_) => Some(Handshake)
    case HsEnable(_) => Some(Handshake)
    case HsShake(_) => Some(Handshake)
    case ClosingTls(op) => Some(op)
    case Clear(op, _, _) => Some(op)
    case RawShut(op, _) => Some(op)
    case RawClose(op, _) => Some(op)
    case Leaving(op, _) => Some(op)
    case _ => if IsJob(p) then (if q.IoActive? then Some(Transfer(q.dir)) else None) else Some(SafeShutdown)
  }

  function Purposes(s: Socket, t: Token): Option<Purpose> {
    PurposeOf(CallOf(s, t).prog, G.PointOf(s.gate, t))
  }

  /** The first step inside the reservation. */
  predicate AtStart(p: Prog, op: Purpose) {
    match op
    case Transfer(_) => p.Job?
    case Connect => p == Connecting
    case Handshake => p == HsEnter
    case SafeShutdown => p == SsLook
    case _ => p == ClosingTls(op)
  }

  /** A call that is refused at once: a handshake on a socket with TLS, and a
      `safe_shutdown` of a closed socket, which returns true. */
  predicate AtOnce(op: Purpose, sh: Shared) {
    (op == Handshake && sh.tls.enabled) || (op == SafeShutdown && !sh.open)
  }

  /** A call does what it was called for until it is over. */
  lemma PurposeKept(s: Socket, t: Token, u: Token, a: Action)
    requires Inv(s) && Enabled(s, u, a) && Purposes(s, t).Some?
    ensures CallOf(Next(s, u, a), t).prog == Resting || Purposes(Next(s, u, a), t) == Purposes(s, t)
  {
    assert CallOk(CallOf(s, t), s.shared, G.PointOf(s.gate, t));
    if u != t {
      OthersLeave(s, t, u, a);
    } else if a.Access? {
      AccessKeepsPurpose(CallOf(s, t), s.shared, s.gate, t);
    } else if a.Do? {
      WorkKeepsPurpose(CallOf(s, t), s.shared, G.PointOf(s.gate, t), a.choice);
    }
  }

  lemma WorkKeepsPurpose(c: Call, sh: Shared, q: G.Point, ch: Choice)
    requires CallOk(c, sh, q) && CanWork(c)
    ensures PurposeOf(Work(c, sh, ch).call.prog, q) == PurposeOf(c.prog, q)
  {
    if IsJob(c.prog) {
      JobWorkOk(c, sh, q, ch);
    }
  }

  lemma OthersLeave(s: Socket, t: Token, u: Token, a: Action)
    requires Enabled(s, u, a) && u != t
    ensures CallOf(Next(s, u, a), t) == CallOf(s, t)
    ensures G.PointOf(Next(s, u, a).gate, t) == G.PointOf(s.gate, t)
  {
    if a.Access? {
      G.StaysPut(s.gate, G.Event(u, AccessOf(CallOf(s, u).prog).value), t);
    } else if a.GiveUp? {
      G.StaysPut(s.gate, G.Event(u, G.Abandon), t);
    }
  }

  /** The point that the next access of call `t` leads to. */
  function PointAfter(c: Call, g: G.Gate, t: Token): G.Point
    requires AccessOf(c.prog).Some? && G.Enabled(g, G.Event(t, AccessOf(c.prog).value))
  {
    G.PointOf(G.Next(g, G.Event(t, AccessOf(c.prog).value)), t)
  }

  lemma AccessKeepsPurpose(c: Call, sh: Shared, g: G.Gate, t: Token)
    requires CallOk(c, sh, G.PointOf(g, t)) && AccessOf(c.prog).Some?
    requires G.Enabled(g, G.Event(t, AccessOf(c.prog).value))
    ensures var q := PointAfter(c, g, t);
            var p := AfterAccess(c.prog, q, sh.tls);
            p == Resting || PurposeOf(p, q) == PurposeOf(c.prog, G.PointOf(g, t))
  {
    if c.prog.Begun? {
      BegunKeepsPurpose(c, sh, g, t);
    } else if c.prog.Entered? {
      EnteredKeepsPurpose(c, sh, g, t);
    }
  }

  lemma EnteredKeepsPurpose(c: Call, sh: Shared, g: G.Gate, t: Token)
    requires CallOk(c, sh, G.PointOf(g, t)) && c.prog.Entered?
    requires G.Enabled(g, G.Event(t, AccessOf(c.prog).value))
    ensures var q := PointAfter(c, g, t);
            var p := AfterAccess(c.prog, q, sh.tls);
            p == Resting || PurposeOf(p, q) == Some(c.prog.op)
  {
  }

  lemma BegunKeepsPurpose(c: Call, sh: Shared, g: G.Gate, t: Token)
    requires CallOk(c, sh, G.PointOf(g, t)) && c.prog.Begun?
    requires G.Enabled(g, G.Event(t, AccessOf(c.prog).value))
    ensures var q := PointAfter(c, g, t);
            var p := AfterAccess(c.prog, q, sh.tls);
            p == Resting || PurposeOf(p, q) == Some(c.prog.op)
    ensures var p := AfterAccess(c.prog, PointAfter(c, g, t), sh.tls);
            Owns(p) || IsJob(p) ==> AtStart(p, c.prog.op) && (p.Job? ==> p.seen == sh.tls)
  {
    if c.prog.op.Transfer? {
      BegunIoKeepsPurpose(c, sh, g, t);
    }
  }

  lemma BegunIoKeepsPurpose(c: Call, sh: Shared, g: G.Gate, t: Token)
    requires CallOk(c, sh, G.PointOf(g, t)) && c.prog.Begun? && c.prog.op.Transfer?
    requires G.Enabled(g, G.Event(t, AccessOf(c.prog).value))
    ensures var q := PointAfter(c, g, t);
            var p := AfterAccess(c.prog, q, sh.tls);
            p == Resting || p == c.prog || (p == Job(sh.tls) && q == G.IoActive(c.prog.op.dir))
  {
  }

  lemma {:induction false} PurposeStays(s: Socket, es: seq<(Token, Action)>, t: Token)
    requires Inv(s) && IsRun(s, es) && Purposes(s, t).Some?
    requires forall k | 0 <= k < |es| :: !(es[k].0 == t && es[k].1.Enter?)
    ensures CallOf(After(s, es), t).prog == Resting || Purposes(After(s, es), t) == Purposes(s, t)
    decreases es
  {
    if es != [] {
      var (u, a) := es[0];
      PurposeKept(s, t, u, a);
      StepKeepsInv(s, u, a);
      if CallOf(Next(s, u, a), t).prog == Resting {
        StaysResting(Next(s, u, a), es[1..], t);
      } else {
        PurposeStays(Next(s, u, a), es[1..], t);
      }
    }
  }

  lemma {:induction false} StaysResting(s: Socket, es: seq<(Token, Action)>, t: Token)
    requires IsRun(s, es) && CallOf(s, t).prog == Resting
    requires forall k | 0 <= k < |es| :: !(es[k].0 == t && es[k].1.Enter?)
    ensures CallOf(After(s, es), t).prog == Resting
    decreases es
  {
    if es != [] {
      assert !(es[0].0 == t && es[0].1.Enter?);
      StaysResting(Next(s, es[0].0, es[0].1), es[1..], t);
    }
  }

  /** The reservation that a call is granted is the beginning of what it was called
      for, and of nothing else. */
  lemma Admitted(s: Socket, t: Token, a: Action)
    requires Inv(s) && Enabled(s, t, a)
    requires var (p, p') := (CallOf(s, t).prog, CallOf(Next(s, t, a), t).prog);
             (Owns(p') && !Owns(p)) || (IsJob(p') && !IsJob(p))
    ensures Purposes(s, t).Some? && AtStart(CallOf(Next(s, t, a), t).prog, Purposes(s, t).value)
    ensures CallOf(Next(s, t, a), t).prog.Job? ==> CallOf(Next(s, t, a), t).prog.seen == s.shared.tls
    ensures Next(s, t, a).shared == s.shared
  {
    var c := CallOf(s, t);
    assert CallOk(c, s.shared, G.PointOf(s.gate, t));
    if a.Access? {
      AdmittingAccess(c, s.shared, s.gate, t);
    } else if a.Do? {
      WorkOk(c, s.shared, G.PointOf(s.gate, t), a.choice);
    }
  }

  lemma AdmittingAccess(c: Call, sh: Shared, g: G.Gate, t: Token)
    requires CallOk(c, sh, G.PointOf(g, t)) && AccessOf(c.prog).Some?
    requires G.Enabled(g, G.Event(t, AccessOf(c.prog).value))
    requires var p := AfterAccess(c.prog, PointAfter(c, g, t), sh.tls);
             (Owns(p) && !Owns(c.prog)) || (IsJob(p) && !IsJob(c.prog))
    ensures var p, op := AfterAccess(c.prog, PointAfter(c, g, t), sh.tls), PurposeOf(c.prog, G.PointOf(g, t));
            op.Some? && AtStart(p, op.value) && (p.Job? ==> p.seen == sh.tls)
  {
    if c.prog.Begun? {
      BegunKeepsPurpose(c, sh, g, t);
    } else {
      assert c.prog == SsDraining;
    }
  }

  /** The tests before the reservation. */
  lemma Enters(s: Socket, t: Token, op: Purpose)
    requires Enabled(s, t, Enter(op))
    ensures CallOf(Next(s, t, Enter(op)), t).prog == if AtOnce(op, s.shared) then Resting else Entered(op)
    ensures Next(s, t, Enter(op)).shared == s.shared && Next(s, t, Enter(op)).gate == s.gate
  {
  }

  /** `safe_shutdown` takes the exclusive flag if it is clear, tries once more if it is
      not, and then returns. */
  lemma RetriesOnce(s: Socket, t: Token)
    requires Inv(s) && Enabled(s, t, Access)
    requires CallOf(s, t).prog == Entered(SafeShutdown) || CallOf(s, t).prog == SsRetry
    ensures var (p, p') := (CallOf(s, t).prog, CallOf(Next(s, t, Access), t).prog);
            p' == if !s.gate.exclusive then SsDraining else if p == SsRetry then Resting else SsRetry
    ensures Next(s, t, Access).shared == s.shared
  {
    assert CallOk(CallOf(s, t), s.shared, G.PointOf(s.gate, t));
  }

  // --- What can go wrong ------------------------------------------------------------

  /** The step is one at which something goes wrong for call `t`. */
  predicate Spoils(s: Socket, t: Token, a: Action)
    requires Enabled(s, t, a)
  {
    var c := CallOf(s, t);
    match a
    case Do(ch) => GoesWrong(c.prog, s.shared, ch)
    case OnHandler(ch) => c.closing.value.handler == Waiting && !ch.good
    case OnTimer(ch) => c.closing.value.timer == Armed && !c.closing.value.done && ch.good
    case _ => false
  }

  /** The connection fails, TLS may not be installed, the handshake fails, the TLS
      shutdown or its timer cannot be started, the raw shutdown or the raw close
      fails.  `safe_shutdown` and `close` leave a closed socket alone. */
  predicate GoesWrong(p: Prog, sh: Shared, ch: Choice) {
    match p
    case Connecting => !ch.good
    case HsEnter => !ch.good || !sh.open || sh.tls.stream.Some?
    case HsShake(_) => !ch.good
    case SsStart => !ch.good
    case SsArm => !ch.good
    case RawShut(op, _) => !ch.good && (op == HalfClose || sh.open)
    case RawClose(_, _) => !ch.good && sh.open
    case _ => false
  }

  predicate Spoiled(s: Socket, es: seq<(Token, Action)>, t: Token)
    requires IsRun(s, es)
    decreases es
  {
    es != [] && ((es[0].0 == t && Spoils(s, t, es[0].1)) || Spoiled(Next(s, es[0].0, es[0].1), es[1..], t))
  }

  /** Call `t` does not give back its reservation during the run. */
  predicate Keeps(es: seq<(Token, Action)>, t: Token) {
    forall k | 0 <= k < |es| :: es[k] != (t, Access)
  }

  /** So far nothing has gone wrong. */
  predicate Promising(c: Call) {
    match c.prog
    case SsArm => Healthy(c)
    case SsAwait(ok) => ok && Healthy(c)
    case Clear(_, _, ok) => ok
    case RawShut(_, ok) => ok
    case RawClose(_, ok) => ok
    case Leaving(_, outcome) => outcome == Done
    case _ => true
  }

  predicate Healthy(c: Call) {
    c.closing.Some? && !c.closing.value.timedOut && c.closing.value.ecOk
  }

  lemma PromiseStep(s: Socket, t: Token, u: Token, a: Action)
    requires Inv(s) && Enabled(s, u, a) && Owns(CallOf(s, t).prog) && (u, a) != (t, Access)
    ensures Owns(CallOf(Next(s, u, a), t).prog)
    ensures Promising(CallOf(Next(s, u, a), t)) <==> Promising(CallOf(s, t)) && !(u == t && Spoils(s, t, a))
  {
    assert CallOk(CallOf(s, t), s.shared, G.PointOf(s.gate, t));
    if u != t {
      OthersLeave(s, t, u, a);
    } else if a.Do? {
      WorkOk(CallOf(s, t), s.shared, G.PointOf(s.gate, t), a.choice);
      PromiseWork(CallOf(s, t), s.shared, a.choice);
    }
  }

  lemma PromiseWork(c: Call, sh: Shared, ch: Choice)
    requires Owns(c.prog) && Knows(c.prog, sh) && StrandOk(c, sh.tls) && CanWork(c)
    ensures Promising(Work(c, sh, ch).call) <==> Promising(c) && !GoesWrong(c.prog, sh, ch)
  {
    if HoldsDrain(c.prog) {
      PromiseShutdownWork(c, sh, ch);
    }
  }

  lemma PromiseShutdownWork(c: Call, sh: Shared, ch: Choice)
    requires HoldsDrain(c.prog) && Knows(c.prog, sh) && StrandOk(c, sh.tls) && CanWork(c)
    ensures Promising(Work(c, sh, ch).call) <==> Promising(c) && !GoesWrong(c.prog, sh, ch)
  {
  }

  lemma {:induction false} PromiseRun(s: Socket, es: seq<(Token, Action)>, t: Token)
    requires Inv(s) && IsRun(s, es) && Owns(CallOf(s, t).prog) && Keeps(es, t)
    ensures Owns(CallOf(After(s, es), t).prog)
    ensures Promising(CallOf(After(s, es), t)) <==> Promising(CallOf(s, t)) && !Spoiled(s, es, t)
    decreases es
  {
    if es != [] {
      var (u, a) := es[0];
      assert (u, a) != (t, Access);
      PromiseStep(s, t, u, a);
      StepKeepsInv(s, u, a);
      PromiseRun(Next(s, u, a), es[1..], t);
    }
  }

  /** What success is: connected, secured, closed, or without TLS. */
  predicate Achieved(op: Purpose, sh: Shared) {
    match op
    case Transfer(_) => true
    case Connect => sh.open
    case Handshake => sh.open && sh.tls.enabled && sh.tls.stream.Some? && sh.tls.ctx.Some?
    case Close => !sh.open && sh.tls == NO_TLS
    case HalfClose => sh.tls == NO_TLS
    case SafeShutdown => !sh.open && sh.tls == NO_TLS
  }

  /** Whatever the other calls do: a call that reaches its end reports success if and
      only if nothing has gone wrong for it on the way, and then it has achieved what
      it was called for. */
  lemma OutcomeExact(s: Socket, es: seq<(Token, Action)>, t: Token, op: Purpose)
    requires Inv(s) && IsRun(s, es) && Keeps(es, t)
    requires !op.Transfer? && AtStart(CallOf(s, t).prog, op)
    ensures var p := CallOf(After(s, es), t).prog;
            p.Leaving? ==>
              && p.op == op
              && (p.outcome == Done <==> !Spoiled(s, es, t))
              && (p.outcome == Done ==> Achieved(op, After(s, es).shared))
  {
    PromiseRun(s, es, t);
    NoEnter(s, es, t);
    RunKeepsInv(s, es);
    DoneAchieves(After(s, es), t);
  }

  lemma DoneAchieves(s: Socket, t: Token)
    requires Inv(s)
    ensures var p := CallOf(s, t).prog; p.Leaving? && p.outcome == Done ==> Achieved(p.op, s.shared)
  {
    assert CallOk(CallOf(s, t), s.shared, G.PointOf(s.gate, t));
  }

  lemma {:induction false} NoEnter(s: Socket, es: seq<(Token, Action)>, t: Token)
    requires Inv(s) && IsRun(s, es) && Owns(CallOf(s, t).prog) && Keeps(es, t)
    ensures Owns(CallOf(After(s, es), t).prog) && Purposes(After(s, es), t) == Purposes(s, t)
    decreases es
  {
    if es != [] {
      var (u, a) := es[0];
      assert (u, a) != (t, Access);
      PurposeKept(s, t, u, a);
      PromiseStep(s, t, u, a);
      StepKeepsInv(s, u, a);
      NoEnter(Next(s, u, a), es[1..], t);
    }
  }

  /** In particular, an error that the TLS shutdown reports, or a timeout, keeps
      `safe_shutdown` from returning true, however its other steps go. */
  lemma {:induction false} BadHandlerIsFinal(s: Socket, es: seq<(Token, Action)>, t: Token, a: Action)
    requires Inv(s) && Enabled(s, t, a) && Spoils(s, t, a) && (a.OnHandler? || a.OnTimer?)
    requires IsRun(Next(s, t, a), es)
    ensures CallOf(After(Next(s, t, a), es), t).prog != Leaving(SafeShutdown, Done)
  {
    assert CallOk(CallOf(s, t), s.shared, G.PointOf(s.gate, t));
    StepKeepsInv(s, t, a);
    assert Broken(CallOf(Next(s, t, a), t));
    BrokenStays(Next(s, t, a), es, t);
  }

  /** The strand has recorded an error or a timeout. */
  predicate Broken(c: Call) {
    c.closing.Some? && (c.closing.value.timedOut || !c.closing.value.ecOk)
  }

  lemma BrokenStep(s: Socket, t: Token, u: Token, a: Action)
    requires Inv(s) && Enabled(s, u, a) && Broken(CallOf(s, t))
    ensures Broken(CallOf(Next(s, u, a), t))
  {
    assert CallOk(CallOf(s, t), s.shared, G.PointOf(s.gate, t));
    if u != t {
      OthersLeave(s, t, u, a);
    }
  }

  lemma {:induction false} BrokenStays(s: Socket, es: seq<(Token, Action)>, t: Token)
    requires Inv(s) && IsRun(s, es) && Broken(CallOf(s, t))
    ensures CallOf(After(s, es), t).prog != Leaving(SafeShutdown, Done)
    decreases es
  {
    if es == [] {
      assert CallOk(CallOf(s, t), s.shared, G.PointOf(s.gate, t));
    } else {
      BrokenStep(s, t, es[0].0, es[0].1);
      StepKeepsInv(s, es[0].0, es[0].1);
      BrokenStays(Next(s, es[0].0, es[0].1), es[1..], t);
    }
  }

  // --- When everything goes well -------------------------------------------------------

  /** Every choice that concerns call `t` is a good one, and its timer is only ever
      aborted. */
  predicate GoodChoices(es: seq<(Token, Action)>, t: Token) {
    forall k | 0 <= k < |es| && es[k].0 == t ::
      match es[k].1
      case Do(ch) => ch.good
      case OnHandler(ch) => ch.good
      case OnTimer(ch) => !ch.good
      case _ => true
  }

  /** An owner is the only one who changes the pointers or the raw socket. */
  lemma OwnerAlone(s: Socket, t: Token, u: Token, a: Action)
    requires Inv(s) && Enabled(s, u, a) && Owns(CallOf(s, t).prog) && u != t
    ensures Next(s, u, a).shared == s.shared
  {
    assert CallOk(CallOf(s, t), s.shared, G.PointOf(s.gate, t));
    var c, q := CallOf(s, u), G.PointOf(s.gate, u);
    assert CallOk(c, s.shared, q);
    G.MutualExclusion(s.gate, t, u);
    if a.Do? {
      WorkOk(c, s.shared, q, a.choice);
    } else if a.OnTimer? {
      TimeOk(c, s.shared, q, a.choice);
    }
  }

  lemma GoodTail(es: seq<(Token, Action)>, t: Token)
    requires es != [] && Keeps(es, t) && GoodChoices(es, t)
    ensures Keeps(es[1..], t) && GoodChoices(es[1..], t)
    ensures es[0] != (t, Access)
    ensures es[0].0 == t ==> match es[0].1
                             case Do(ch) => ch.good
                             case OnHandler(ch) => ch.good
                             case OnTimer(ch) => !ch.good
                             case _ => true
  {
    assert es[0] != (t, Access);
  }

  predicate MayInstall(c: Call, sh: Shared) {
    c.prog == HsEnter ==> sh.open && sh.tls.stream == None
  }

  lemma {:induction false} GoodRun(s: Socket, es: seq<(Token, Action)>, t: Token)
    requires Inv(s) && IsRun(s, es) && Keeps(es, t) && GoodChoices(es, t)
    requires Owns(CallOf(s, t).prog) && MayInstall(CallOf(s, t), s.shared)
    ensures !Spoiled(s, es, t)
    decreases es
  {
    if es != [] {
      var (u, a) := es[0];
      GoodTail(es, t);
      PromiseStep(s, t, u, a);
      StepKeepsInv(s, u, a);
      if u != t {
        OwnerAlone(s, t, u, a);
        OthersLeave(s, t, u, a);
      } else {
        NeverEntersAgain(s, t, a);
      }
      GoodRun(Next(s, u, a), es[1..], t);
    }
  }

  lemma NeverEntersAgain(s: Socket, t: Token, a: Action)
    requires Inv(s) && Enabled(s, t, a) && a != Access && Owns(CallOf(s, t).prog)
    requires MayInstall(CallOf(s, t), s.shared)
    ensures MayInstall(CallOf(Next(s, t, a), t), Next(s, t, a).shared)
  {
    assert CallOk(CallOf(s, t), s.shared, G.PointOf(s.gate, t));
  }

  /** A call for which every choice is good reports success; a handshake needs an open
      socket without TLS. */
  lemma GoodCallSucceeds(s: Socket, es: seq<(Token, Action)>, t: Token, op: Purpose)
    requires Inv(s) && IsRun(s, es) && Keeps(es, t) && GoodChoices(es, t)
    requires !op.Transfer? && AtStart(CallOf(s, t).prog, op) && MayInstall(CallOf(s, t), s.shared)
    ensures var p := CallOf(After(s, es), t).prog;
            p.Leaving? ==> p == Leaving(op, Done) && Achieved(op, After(s, es).shared)
  {
    GoodRun(s, es, t);
    OutcomeExact(s, es, t, op);
  }

  // --- Getting there ----------------------------------------------------------------------

  /** An upper bound for the own steps that are left. */
  function Distance(p: Prog): nat {
    match p
    case HsEnter => 10
    case HsContext(_) => 9
    case HsStream(_) => 8
    case HsEnable(_) => 7
    case HsShake(_) => 6
    case SsLook => 9
    case SsStart => 8
    case SsArm => 7
    case SsAwait(_) => 6
    case ClosingTls(_) => 6
    case Clear(_, at, _) => if at <= 2 then 5 - at else 0
    case RawShut(_, _) => 2
    case RawClose(_, _) => 1
    case Connecting => 1
    case _ => 0
  }

  function Works(es: seq<(Token, Action)>, t: Token): nat {
    if es == [] then 0 else One(es[0].0 == t && es[0].1.Do?) + Works(es[1..], t)
  }

  lemma DistanceFalls(s: Socket, t: Token, u: Token, a: Action)
    requires Inv(s) && Enabled(s, u, a) && Owns(CallOf(s, t).prog) && (u, a) != (t, Access)
    ensures Distance(CallOf(Next(s, u, a), t).prog) + One(u == t && a.Do?) <= Distance(CallOf(s, t).prog)
  {
    assert CallOk(CallOf(s, t), s.shared, G.PointOf(s.gate, t));
    if u != t {
      OthersLeave(s, t, u, a);
    } else if a.Do? {
      WorkGoesOn(CallOf(s, t), s.shared, a.choice);
    }
  }

  lemma WorkGoesOn(c: Call, sh: Shared, ch: Choice)
    requires Owns(c.prog) && Knows(c.prog, sh) && CanWork(c)
    ensures Distance(Work(c, sh, ch).call.prog) < Distance(c.prog)
  {
  }

  /** However the choices fall, a call takes at most ten steps inside its reservation. */
  lemma {:induction false} FewSteps(s: Socket, es: seq<(Token, Action)>, t: Token)
    requires Inv(s) && IsRun(s, es) && Keeps(es, t) && Owns(CallOf(s, t).prog)
    ensures Works(es, t) + Distance(CallOf(After(s, es), t).prog) <= Distance(CallOf(s, t).prog) <= 10
    decreases es
  {
    if es != [] {
      var (u, a) := es[0];
      assert (u, a) != (t, Access);
      DistanceFalls(s, t, u, a);
      PromiseStep(s, t, u, a);
      StepKeepsInv(s, u, a);
      FewSteps(Next(s, u, a), es[1..], t);
    }
  }

  /** And it is never stuck there: it can work, or leave, or its shutdown handler or its
      timer can run. */
  lemma NeverStuck(s: Socket, t: Token)
    requires Reachable(s) && Owns(CallOf(s, t).prog)
    ensures forall ch ::
              || Enabled(s, t, Do(ch))
              || (CallOf(s, t).prog.Leaving? && Enabled(s, t, Access))
              || (CallOf(s, t).prog.SsAwait? && (Enabled(s, t, OnHandler(ch)) || Enabled(s, t, OnTimer(ch))))
  {
    SocketSafety.ReachableInv(s);
    assert CallOk(CallOf(s, t), s.shared, G.PointOf(s.gate, t));
  }

  // --- The raw shutdown and the raw close ------------------------------------------------------

  /** The raw shutdown, or the raw close. */
  predicate AtStage(p: Prog, close: bool) {
    if close then p.RawClose? else p.RawShut?
  }

  /** On the way to it. */
  predicate BeforeStage(p: Prog, close: bool) {
    || p.SsLook? || p.SsStart? || p.SsArm? || p.SsAwait?
    || (p.ClosingTls? && p.op == if close then Close else HalfClose)
    || (p.Clear? && (p.op == SafeShutdown || p.op == if close then Close else HalfClose))
    || (close && p.RawShut? && p.op == SafeShutdown)
  }

  /** Call `t` performs it during the run. */
  predicate Performs(s: Socket, es: seq<(Token, Action)>, t: Token, close: bool)
    requires IsRun(s, es)
    decreases es
  {
    es != [] &&
    ((es[0].0 == t && es[0].1.Do? && AtStage(CallOf(s, t).prog, close)) || Performs(Next(s, es[0].0, es[0].1), es[1..], t, close))
  }

  lemma {:induction false} ReachesStage(s: Socket, es: seq<(Token, Action)>, t: Token, close: bool)
    requires Inv(s) && IsRun(s, es) && Keeps(es, t)
    requires BeforeStage(CallOf(s, t).prog, close) || AtStage(CallOf(s, t).prog, close)
    ensures var p := CallOf(After(s, es), t).prog;
            BeforeStage(p, close) || AtStage(p, close) || Performs(s, es, t, close)
    decreases es
  {
    if es != [] {
      var (u, a) := es[0];
      assert (u, a) != (t, Access);
      if !(u == t && a.Do? && AtStage(CallOf(s, t).prog, close)) {
        StageStep(s, t, u, a, close);
        StepKeepsInv(s, u, a);
        ReachesStage(Next(s, u, a), es[1..], t, close);
      }
    }
  }

  lemma StageStep(s: Socket, t: Token, u: Token, a: Action, close: bool)
    requires Inv(s) && Enabled(s, u, a) && (u, a) != (t, Access)
    requires BeforeStage(CallOf(s, t).prog, close) || AtStage(CallOf(s, t).prog, close)
    requires !(u == t && a.Do? && AtStage(CallOf(s, t).prog, close))
    ensures var p := CallOf(Next(s, u, a), t).prog; BeforeStage(p, close) || AtStage(p, close)
  {
    assert CallOk(CallOf(s, t), s.shared, G.PointOf(s.gate, t));
    if u != t {
      OthersLeave(s, t, u, a);
    }
  }

  /** `shutdown` and `safe_shutdown` do not end without the raw shutdown, `close` and
      `safe_shutdown` not without the raw close. */
  lemma NothingSkipped(s: Socket, es: seq<(Token, Action)>, t: Token, op: Purpose)
    requires Inv(s) && IsRun(s, es) && Keeps(es, t)
    requires (op == HalfClose || op == Close || op == SafeShutdown) && AtStart(CallOf(s, t).prog, op)
    requires CallOf(After(s, es), t).prog.Leaving?
    ensures op != Close ==> Performs(s, es, t, false)
    ensures op != HalfClose ==> Performs(s, es, t, true)
  {
    if op != Close {
      ReachesStage(s, es, t, false);
    }
    if op != HalfClose {
      ReachesStage(s, es, t, true);
    }
  }

  // --- A plain socket ------------------------------------------------------------------------------

  predicate Plain(c: Call, tls: Tls) {
    || (c.prog == SsLook && !tls.enabled)
    || c.prog == RawShut(SafeShutdown, true) || c.prog == RawClose(SafeShutdown, true) || c.prog == Leaving(SafeShutdown, Done)
  }

  function PlainDistance(p: Prog): nat {
    match p case SsLook => 3 case RawShut(_, _) => 2 case RawClose(_, _) => 1 case _ => 0
  }

  lemma PlainStep(s: Socket, t: Token, u: Token, a: Action)
    requires Inv(s) && Enabled(s, u, a) && Plain(CallOf(s, t), s.shared.tls)
    requires (u, a) != (t, Access) && (u == t && a.Do? ==> a.choice.good)
    ensures var s' := Next(s, u, a);
            && Plain(CallOf(s', t), s'.shared.tls)
            && PlainDistance(CallOf(s', t).prog) == PlainDistance(CallOf(s, t).prog) - One(u == t && a.Do?)
  {
    assert CallOk(CallOf(s, t), s.shared, G.PointOf(s.gate, t));
    if u != t {
      OwnerAlone(s, t, u, a);
      OthersLeave(s, t, u, a);
    } else if a.Do? {
      PlainWork(CallOf(s, t), s.shared, a.choice);
    }
  }

  lemma PlainWork(c: Call, sh: Shared, ch: Choice)
    requires Plain(c, sh.tls) && CanWork(c) && ch.good
    ensures var e := Work(c, sh, ch);
            Plain(e.call, e.shared.tls) && PlainDistance(e.call.prog) == PlainDistance(c.prog) - 1
  {
  }

  lemma {:induction false} PlainRun(s: Socket, es: seq<(Token, Action)>, t: Token)
    requires Inv(s) && IsRun(s, es) && Keeps(es, t) && GoodChoices(es, t)
    requires Plain(CallOf(s, t), s.shared.tls)
    ensures Plain(CallOf(After(s, es), t), After(s, es).shared.tls)
    ensures PlainDistance(CallOf(After(s, es), t).prog) + Works(es, t) == PlainDistance(CallOf(s, t).prog)
    decreases es
  {
    if es != [] {
      var (u, a) := es[0];
      GoodTail(es, t);
      PlainStep(s, t, u, a);
      StepKeepsInv(s, u, a);
      PlainRun(Next(s, u, a), es[1..], t);
    }
  }

  /** Once drained, `safe_shutdown` of a socket without TLS returns true after three
      good steps: the look at TLS, the raw shutdown and the raw close. */
  lemma PlainShutdown(s: Socket, es: seq<(Token, Action)>, t: Token)
    requires Inv(s) && IsRun(s, es) && Keeps(es, t) && GoodChoices(es, t)
    requires CallOf(s, t).prog == SsLook && !s.shared.tls.enabled
    ensures Works(es, t) <= 3
    ensures Works(es, t) == 3 ==> CallOf(After(s, es), t).prog == Leaving(SafeShutdown, Done)
  {
    PlainRun(s, es, t);
  }

  // --- Who changes the raw socket --------------------------------------------------------------------

  /** What a step does to the raw socket: connecting opens it, the raw close closes it,
      and so do the timer that has marked a timeout and the clean-up when it could not
      be armed.  Each of them may fail, and nothing else touches it. */
  lemma OpenExactly(s: Socket, t: Token, a: Action)
    requires Inv(s) && Enabled(s, t, a)
    ensures Next(s, t, a).shared.open ==
            match a
            case OnTimer(ch) => s.shared.open && (CallOf(s, t).closing.value.timer == Marked ==> ch.flag)
            case Do(ch) =>
              var p := CallOf(s, t).prog;
              if p == Connecting then ch.good || ch.flag
              else if p.RawClose? then s.shared.open && !ch.good && ch.flag
              else if p.SsArm? then s.shared.open && (ch.good || ch.flag)
              else s.shared.open
            case _ => s.shared.open
  {
    assert CallOk(CallOf(s, t), s.shared, G.PointOf(s.gate, t));
  }

  /** Only a connection opens the raw socket; only a failed connection, the raw close, a
      marked timer and a timer that could not be armed close it. */
  lemma OpenChanges(s: Socket, t: Token, a: Action)
    requires Inv(s) && Enabled(s, t, a) && Next(s, t, a).shared.open != s.shared.open
    ensures Next(s, t, a).shared.open ==> a.Do? && CallOf(s, t).prog == Connecting
    ensures !Next(s, t, a).shared.open ==>
              || (a.Do? && CallOf(s, t).prog == Connecting && !a.choice.good)
              || (a.Do? && (CallOf(s, t).prog.RawClose? || CallOf(s, t).prog.SsArm?))
              || (a.OnTimer? && CallOf(s, t).closing.value.timer == Marked)
  {
    assert CallOk(CallOf(s, t), s.shared, G.PointOf(s.gate, t));
  }

  // --- Streams that have gone ------------------------------------------------------------------------

  /** Everything that exists or is being installed has a number already given out. */
  ghost predicate Numbered(s: Socket) {
    && (s.shared.tls.stream.Some? ==> s.shared.tls.stream.value < s.shared.next)
    && (s.shared.tls.ctx.Some? ==> s.shared.tls.ctx.value < s.shared.next)
    && forall t, id: nat | Installs(CallOf(s, t).prog, id) :: id < s.shared.next
  }

  predicate Installs(p: Prog, id: nat) { p == HsContext(id) || p == HsStream(id) }

  /** Stream `id` has existed and been destroyed. */
  ghost predicate Gone(s: Socket, id: nat) {
    && id < s.shared.next && s.shared.tls.stream != Some(id)
    && forall t :: !Installs(CallOf(s, t).prog, id)
  }

  lemma NumberedInitially()
    ensures Numbered(INITIAL)
  {
  }

  /** One step of a call gives out a fresh number, or installs what it was going to
      install. */
  lemma WorkNumbers(c: Call, sh: Shared, ch: Choice, id: nat)
    requires CanWork(c)
    ensures var e := Work(c, sh, ch);
            && sh.next <= e.shared.next
            && (Installs(e.call.prog, id) ==> Installs(c.prog, id) || (c.prog == HsEnter && id == sh.next < e.shared.next))
            && (e.shared.tls.stream == Some(id) ==> sh.tls.stream == Some(id) || Installs(c.prog, id))
            && (e.shared.tls.ctx == Some(id) ==> sh.tls.ctx == Some(id) || Installs(c.prog, id))
  {
  }

  lemma StepNumbers(s: Socket, t: Token, a: Action, u: Token, id: nat)
    requires Enabled(s, t, a)
    ensures var s' := Next(s, t, a);
            && s.shared.next <= s'.shared.next
            && (Installs(CallOf(s', u).prog, id) ==>
                  Installs(CallOf(s, u).prog, id) || (u == t && CallOf(s, t).prog == HsEnter && id == s.shared.next < s'.shared.next))
            && (s'.shared.tls.stream == Some(id) ==> s.shared.tls.stream == Some(id) || Installs(CallOf(s, t).prog, id))
            && (s'.shared.tls.ctx == Some(id) ==> s.shared.tls.ctx == Some(id) || Installs(CallOf(s, t).prog, id))
  {
    if u != t {
      OthersLeave(s, u, t, a);
    }
    if a.Do? {
      WorkNumbers(CallOf(s, t), s.shared, a.choice, id);
    }
  }

  lemma NumberedStays(s: Socket, t: Token, a: Action)
    requires Numbered(s) && Enabled(s, t, a)
    ensures Numbered(Next(s, t, a)) && Next(s, t, a).shared.next >= s.shared.next
  {
    var s' := Next(s, t, a);
    forall u, id: nat | Installs(CallOf(s', u).prog, id) ensures id < s'.shared.next {
      StepNumbers(s, t, a, u, id);
      assert Installs(CallOf(s, u).prog, id) ==> id < s.shared.next;
    }
    forall id: nat | s'.shared.tls.stream == Some(id) || s'.shared.tls.ctx == Some(id) ensures id < s'.shared.next {
      StepNumbers(s, t, a, t, id);
      assert Installs(CallOf(s, t).prog, id) ==> id < s.shared.next;
    }
    StepNumbers(s, t, a, t, 0);
  }

  /** A stream that is destroyed has gone, */
  lemma DestroyedIsGone(s: Socket, t: Token, a: Action, id: nat)
    requires Inv(s) && Numbered(s) && Enabled(s, t, a)
    requires s.shared.tls.stream == Some(id) && Next(s, t, a).shared.tls.stream != Some(id)
    ensures Gone(Next(s, t, a), id)
  {
    NumberedStays(s, t, a);
    forall u ensures !Installs(CallOf(Next(s, t, a), u).prog, id) {
      assert CallOk(CallOf(s, u), s.shared, G.PointOf(s.gate, u));
      StepNumbers(s, t, a, u, id);
    }
  }

  lemma GoneStep(s: Socket, t: Token, a: Action, id: nat)
    requires Enabled(s, t, a) && Gone(s, id)
    ensures Gone(Next(s, t, a), id)
  {
    StepNumbers(s, t, a, t, id);
    forall u ensures !Installs(CallOf(Next(s, t, a), u).prog, id) {
      assert !Installs(CallOf(s, u).prog, id);
      StepNumbers(s, t, a, u, id);
    }
  }

  /** and never comes back: no later job works on it. */
  lemma {:induction false} GoneForEver(s: Socket, es: seq<(Token, Action)>, id: nat)
    requires Inv(s) && IsRun(s, es) && Gone(s, id)
    ensures Gone(After(s, es), id)
    ensures forall t :: CallOf(After(s, es), t).prog.JobOnStream? ==> CallOf(After(s, es), t).prog.stream != id
    decreases es
  {
    if es == [] {
      forall t | CallOf(s, t).prog.JobOnStream? ensures CallOf(s, t).prog.stream != id {
        assert CallOk(CallOf(s, t), s.shared, G.PointOf(s.gate, t));
      }
    } else {
      GoneStep(s, es[0].0, es[0].1, id);
      StepKeepsInv(s, es[0].0, es[0].1);
      GoneForEver(Next(s, es[0].0, es[0].1), es[1..], id);
    }
  }
}
