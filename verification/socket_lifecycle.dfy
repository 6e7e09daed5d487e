/** What a TCP socket does inside its reservations.

    Every operation on the socket is a call with a program: an I/O job looks up
    the TLS stream and uses it, a handshake installs the TLS objects one pointer
    at a time, `close`, `shutdown` and a failed handshake clear them one pointer
    at a time, and `safe_shutdown` drains, runs an asynchronous TLS shutdown
    against a timer on the same strand, clears TLS and closes the raw socket.

    A step of the socket is one step of one call: an access to the gate, one
    change of a pointer or of the raw socket, or one step of a handler on the
    strand.  Outcomes of the network, of OpenSSL and of the clock are choices.
 */
module SocketLifecycle {
  import opened Wrappers
  import opened Tally
  import G = SocketGate

  /** `tls_enabled`, `tls_stream` and `tls_ctx`.  Objects are numbered in the
      order of their creation. */
  datatype Tls = Tls(enabled: bool, stream: Option<nat>, ctx: Option<nat>)

  const NO_TLS := Tls(false, None, None)

  /** What the calls on one socket share, apart from the gate. */
  datatype Shared = Shared(open: bool, tls: Tls, next: nat)

  datatype Purpose = Transfer(dir: G.Direction) | Connect | Handshake | Close | HalfClose | SafeShutdown

  /** `Refused`: thrown before anything was changed.  `Failed`: thrown or
      reported after the work began. */
  datatype Outcome = Done | Refused | Failed

  datatype Prog =
    | Resting
    | Entered(op: Purpose)              // passed the tests before the reservation
    | Begun(op: Purpose)                // inside begin_io_job or begin_exclusive_operation
    | Releasing(op: Purpose)            // inside finish_io_job or end_exclusive_operation
      // I/O jobs; `seen` records the pointers at the admission
    | Job(seen: Tls)
    | JobLooked(seen: Tls, ssl: bool)   // is_ssl() has returned
    | JobOnStream(seen: Tls, stream: nat)
    | JobOnRaw(seen: Tls)
    | JobThrew                          // get_tls_raw() threw
      // exclusive operations
    | Connecting
    | HsEnter                           // before the tests of init_ssl
    | HsContext(id: nat)                // before tls_ctx is set
    | HsStream(id: nat)                 // before tls_stream is set
    | HsEnable(id: nat)                 // before tls_enabled is set
    | HsShake(id: nat)                  // the handshake runs
    | ClosingTls(op: Purpose)           // close, shutdown: before the test for a stream
    | Clear(op: Purpose, at: nat, ok: bool)  // clear_ssl: 0 enabled, 1 stream, 2 context
    | RawShut(op: Purpose, ok: bool)
    | RawClose(op: Purpose, ok: bool)
    | Leaving(op: Purpose, outcome: Outcome)
      // safe_shutdown
    | SsRetry                           // lost the flag once: polls, then tries again
    | SsDraining
    | SsLook                            // before is_ssl()
    | SsStart                           // before async_shutdown
    | SsArm                             // before the timer is armed
    | SsAwait(ok: bool)                 // polls until the shutdown handler is done

  /** The shutdown handler stores the error code, cancels the timer and then
      publishes `done`. */
  datatype Handler = NotStarted | Waiting | EcStored | TimerCancelled | Finished

  /** The timer handler marks the timeout and then closes the raw socket. */
  datatype Timer = Unarmed | Armed | Marked | Over

  datatype Closing = Closing(stream: Option<nat>, handler: Handler, timer: Timer, ecOk: bool, done: bool, timedOut: bool)

  datatype Call = Call(prog: Prog, closing: Option<Closing>)

  const IDLE_CALL := Call(Resting, None)

  datatype Socket = Socket(gate: G.Gate, shared: Shared, calls: map<Token, Call>)

  const INITIAL := Socket(G.INITIAL, Shared(false, NO_TLS, 0), map[])

  function CallOf(s: Socket, t: Token): Call {
    if t in s.calls then s.calls[t] else IDLE_CALL
  }

  // --- Steps of one call --------------------------------------------------------

  /** The access to the gate that a program can take now.  A job may end as soon
      as it has its reservation. */
  function AccessOf(p: Prog): Option<G.Action> {
    match p
    case Entered(Transfer(d)) => Some(G.BeginIo(d))
    case Entered(SafeShutdown) => Some(G.BeginDrain)
    case Entered(_) => Some(G.BeginExclusive)
    case SsRetry => Some(G.BeginDrain)
    case Begun(_) => Some(G.Step)
    case SsDraining => Some(G.Step)
    case Releasing(_) => Some(G.Step)
    case Leaving(_, _) => Some(G.Finish)
    case _ => if IsJob(p) then Some(G.Finish) else None
  }

  predicate IsJob(p: Prog) {
    p.Job? || p.JobLooked? || p.JobOnStream? || p.JobOnRaw? || p.JobThrew?
  }

  /** Where the program goes when its access has led to point `q`. */
  function AfterAccess(p: Prog, q: G.Point, tls: Tls): Prog {
    match p
    case Entered(SafeShutdown) => if q == G.Idle then SsRetry else SsDraining
    case Entered(op) => if q == G.Idle then Resting else Begun(op)
    case SsRetry => if q == G.Idle then Resting else SsDraining
    case Begun(op) =>
      if q == G.Idle then Resting
      else if q.IoActive? then Job(tls)
      else if q == G.ExHeld then Granted(op)
      else p
    case SsDraining => if q == G.DrainHeld then SsLook else p
    case Releasing(_) => if q == G.Idle then Resting else p
    case Leaving(op, _) => if q == G.Idle then Resting else Releasing(op)
    case _ => if IsJob(p) && q.IoReleasing? then Releasing(Transfer(q.dir)) else p
  }

  function Granted(op: Purpose): Prog {
    match op
    case Connect => Connecting
    case Handshake => HsEnter
    case _ => ClosingTls(op)
  }

  /** How a library call went.  `good`: it succeeded.  `flag`: after a failure,
      whether the raw socket is (still) open. */
  datatype Choice = Choice(good: bool, flag: bool)

  predicate CanWork(c: Call) {
    match c.prog
    case Job(_) => true
    case JobLooked(_, _) => true
    case Connecting => true
    case HsEnter => true
    case HsContext(_) => true
    case HsStream(_) => true
    case HsEnable(_) => true
    case HsShake(_) => true
    case ClosingTls(_) => true
    case Clear(_, _, _) => true
    case RawShut(_, _) => true
    case RawClose(_, _) => true
    case SsLook => true
    case SsStart => true
    case SsArm => c.closing.Some?
    case SsAwait(_) => c.closing.Some? && c.closing.value.done
    case _ => false
  }

  datatype Effect = Effect(call: Call, shared: Shared)

  function Work(c: Call, sh: Shared, ch: Choice): Effect
    requires CanWork(c)
  {
    var tls := sh.tls;
    match c.prog
    case Job(seen) =>
      // a synchronous job tests tls_stream itself, an asynchronous one calls is_ssl()
      if ch.flag then Goto(c, sh, if tls.stream.Some? then JobOnStream(seen, tls.stream.value) else JobOnRaw(seen))
      else Goto(c, sh, JobLooked(seen, tls.enabled))
    case JobLooked(seen, ssl) =>
      if !ssl then Goto(c, sh, JobOnRaw(seen))
      else if tls.stream.Some? then Goto(c, sh, JobOnStream(seen, tls.stream.value))
      else Goto(c, sh, JobThrew)
    case Connecting =>
      Goto(c, sh.(open := if ch.good then true else ch.flag), Leaving(Connect, if ch.good then Done else Failed))
    case HsEnter =>
      if !sh.open || tls.stream.Some? || !ch.good then Goto(c, sh, Leaving(Handshake, Refused))
      else Goto(c, sh.(next := sh.next + 1), HsContext(sh.next))
    case HsContext(id) => Goto(c, sh.(tls := tls.(ctx := Some(id))), HsStream(id))
    case HsStream(id) => Goto(c, sh.(tls := tls.(stream := Some(id))), HsEnable(id))
    case HsEnable(id) => Goto(c, sh.(tls := tls.(enabled := true)), HsShake(id))
    case HsShake(_) => Goto(c, sh, if ch.good then Leaving(Handshake, Done) else Clear(Handshake, 0, false))
    case ClosingTls(op) => Goto(c, sh, if tls.stream.Some? then Clear(op, 0, true) else AfterClear(op, true))
    case Clear(op, at, ok) =>
      if at == 0 then Goto(c, sh.(tls := tls.(enabled := false)), Clear(op, 1, ok))
      else if at == 1 then Goto(c, sh.(tls := tls.(stream := None)), Clear(op, 2, ok))
      else Goto(c, sh.(tls := tls.(ctx := None)), AfterClear(op, ok))
    case RawShut(op, ok) =>
      if op == SafeShutdown then Goto(c, sh, RawClose(op, ok && (sh.open ==> ch.good)))
      else Goto(c, sh, Leaving(op, if ch.good then Done else Failed))
    case RawClose(op, ok) =>
      if !sh.open then Goto(c, sh, Leaving(op, if ok then Done else Failed))
      else if ch.good then Goto(c, sh.(open := false), Leaving(op, if ok then Done else Failed))
      else Goto(c, sh.(open := ch.flag), Leaving(op, Failed))
    case SsLook => Goto(c, sh, if tls.enabled then SsStart else RawShut(SafeShutdown, true))
    case SsStart =>
      if ch.good && tls.stream.Some?
      then Effect(Call(SsArm, Some(Closing(tls.stream, Waiting, Unarmed, true, false, false))), sh)
      else Effect(Call(SsAwait(false), Some(Closing(None, NotStarted, Unarmed, true, true, false))), sh)
    case SsArm =>
      if ch.good then Effect(Call(SsAwait(true), Some(c.closing.value.(timer := Armed))), sh)
      else Effect(Call(SsAwait(false), c.closing), sh.(open := sh.open && ch.flag))
    case SsAwait(ok) =>
      Goto(c, sh, Clear(SafeShutdown, 0, ok && !c.closing.value.timedOut && c.closing.value.ecOk))
  }

  function Goto(c: Call, sh: Shared, p: Prog): Effect {
    Effect(c.(prog := p), sh)
  }

  function AfterClear(op: Purpose, ok: bool): Prog {
    match op
    case Handshake => Leaving(Handshake, Failed)
    case Close => RawClose(Close, ok)
    case _ => RawShut(op, ok)
  }

  // --- The strand -----------------------------------------------------------------

  predicate HandlerRunning(c: Closing) { c.handler == EcStored || c.handler == TimerCancelled }

  /** Handlers of one strand do not overlap. */
  predicate CanHandle(c: Closing) {
    HandlerRunning(c) || (c.handler == Waiting && c.timer != Marked)
  }

  function Handle(c: Closing, ch: Choice): Closing
    requires CanHandle(c)
  {
    match c.handler
    case Waiting => c.(handler := EcStored, ecOk := ch.good)
    case EcStored => c.(handler := TimerCancelled)
    case TimerCancelled => c.(handler := Finished, done := true)
  }

  predicate CanTime(c: Closing) {
    c.timer == Marked || (c.timer == Armed && !HandlerRunning(c))
  }

  /** The timer handler: an aborted wait (`!good`) or a finished shutdown ends it. */
  function Time(c: Closing, sh: Shared, ch: Choice): (r: (Closing, Shared))
    requires CanTime(c)
  {
    if c.timer == Marked then (c.(timer := Over), sh.(open := sh.open && ch.flag))
    else if c.done || !ch.good then (c.(timer := Over), sh)
    else (c.(timer := Marked, timedOut := true), sh)
  }

  // --- Steps of the socket ----------------------------------------------------------

  datatype Action =
    | Enter(op: Purpose)      // the tests before the reservation
    | Access                  // the next access to the gate
    | GiveUp                  // the drain deadline has passed
    | Do(choice: Choice)      // the next step inside the reservation
    | OnHandler(choice: Choice)
    | OnTimer(choice: Choice)

  predicate Enabled(s: Socket, t: Token, a: Action) {
    var c := CallOf(s, t);
    match a
    case Enter(op) => c.prog == Resting && (op == SafeShutdown ==> c.closing == None)
    case Access => AccessOf(c.prog).Some? && G.Enabled(s.gate, G.Event(t, AccessOf(c.prog).value))
    case GiveUp => c.prog == SsDraining && G.Enabled(s.gate, G.Event(t, G.Abandon))
    case Do(_) => CanWork(c)
    case OnHandler(_) => c.closing.Some? && CanHandle(c.closing.value)
    case OnTimer(_) => c.closing.Some? && CanTime(c.closing.value)
  }

  /** `begin_tls_handshake` throws when TLS is on, `safe_shutdown` returns true at
      once when the raw socket is closed. */
  function EnterProg(op: Purpose, sh: Shared): Prog {
    if (op == Handshake && sh.tls.enabled) || (op == SafeShutdown && !sh.open) then Resting else Entered(op)
  }

  function Next(s: Socket, t: Token, a: Action): Socket
    requires Enabled(s, t, a)
  {
    var c := CallOf(s, t);
    match a
    case Enter(op) => s.(calls := s.calls[t := c.(prog := EnterProg(op, s.shared))])
    case Access =>
      var g := G.Next(s.gate, G.Event(t, AccessOf(c.prog).value));
      s.(gate := g, calls := s.calls[t := c.(prog := AfterAccess(c.prog, G.PointOf(g, t), s.shared.tls))])
    case GiveUp =>
      s.(gate := G.Next(s.gate, G.Event(t, G.Abandon)), calls := s.calls[t := c.(prog := Resting)])
    case Do(ch) =>
      var e := Work(c, s.shared, ch);
      s.(shared := e.shared, calls := s.calls[t := e.call])
    case OnHandler(ch) =>
      s.(calls := s.calls[t := c.(closing := Some(Handle(c.closing.value, ch)))])
    case OnTimer(ch) =>
      var r := Time(c.closing.value, s.shared, ch);
      s.(shared := r.1, calls := s.calls[t := c.(closing := Some(r.0))])
  }

  ghost predicate Reachable(s: Socket) {
    exists es :: IsRun(INITIAL, es) && After(INITIAL, es) == s
  }

  predicate IsRun(s: Socket, es: seq<(Token, Action)>)
    decreases es
  {
    es != [] ==> Enabled(s, es[0].0, es[0].1) && IsRun(Next(s, es[0].0, es[0].1), es[1..])
  }

  function After(s: Socket, es: seq<(Token, Action)>): Socket
    requires IsRun(s, es)
    decreases es
  {
    if es == [] then s else After(Next(s, es[0].0, es[0].1), es[1..])
  }

  // --- The invariant of one call ------------------------------------------------------

  /** All three pointers, or none. */
  predicate Whole(tls: Tls) {
    tls == NO_TLS || (tls.enabled && tls.stream.Some? && tls.ctx.Some?)
  }

  /** The reservation that a program holds. */
  predicate HoldsDrain(p: Prog) {
    match p
    case SsLook => true
    case SsStart => true
    case SsArm => true
    case SsAwait(_) => true
    case Clear(op, _, _) => op == SafeShutdown
    case RawShut(op, _) => op == SafeShutdown
    case RawClose(op, _) => op == SafeShutdown
    case Leaving(op, _) => op == SafeShutdown
    case _ => false
  }

  predicate HoldsExclusive(p: Prog) {
    match p
    case Connecting => true
    case HsEnter => true
    case HsContext(_) => true
    case HsStream(_) => true
    case HsEnable(_) => true
    case HsShake(_) => true
    case ClosingTls(_) => true
    case Clear(op, _, _) => op != SafeShutdown
    case RawShut(op, _) => op != SafeShutdown
    case RawClose(op, _) => op != SafeShutdown
    case Leaving(op, _) => op != SafeShutdown
    case _ => false
  }

  predicate Owns(p: Prog) { HoldsDrain(p) || HoldsExclusive(p) }

  /** Program and gate agree about every call. */
  predicate Agrees(p: Prog, q: G.Point) {
    match p
    case Begun(op) =>
      if op.Transfer? then G.UsesDirection(q, op.dir) && !q.IoActive? && !q.IoReleasing?
      else op != SafeShutdown && (q == G.ExFlagged || q == G.ExUndo)
    case Releasing(op) => if op.Transfer? then q == G.IoReleasing(op.dir) else q == G.ExReleasing
    case SsDraining => q == G.DrainFlagged
    case _ =>
      if IsJob(p) then q.IoActive?
      else if HoldsDrain(p) then q == G.DrainHeld
      else if HoldsExclusive(p) then q == G.ExHeld
      else q == G.Idle
  }

  /** What a program knows about the pointers and the raw socket. */
  predicate Knows(p: Prog, sh: Shared) {
    var tls := sh.tls;
    match p
    case Job(seen) => seen == tls && Whole(tls)
    case JobLooked(seen, ssl) => seen == tls && Whole(tls) && ssl == tls.enabled
    case JobOnStream(seen, stream) => seen == tls && Whole(tls) && tls.stream == Some(stream)
    case JobOnRaw(seen) => seen == tls && Whole(tls) && tls == NO_TLS
    case JobThrew => false
    case Connecting => Whole(tls)
    case HsEnter => Whole(tls)
    case HsContext(_) => sh.open && tls == NO_TLS
    case HsStream(id) => sh.open && tls == Tls(false, None, Some(id))
    case HsEnable(id) => sh.open && tls == Tls(false, Some(id), Some(id))
    case HsShake(id) => sh.open && tls == Tls(true, Some(id), Some(id))
    case ClosingTls(op) => Whole(tls) && (op == Close || op == HalfClose)
    case Clear(op, at, ok) => !op.Transfer? && op != Connect && CutTo(tls, at) && (op == SafeShutdown || ok == (op != Handshake))
    case RawShut(op, ok) => tls == NO_TLS && (op == SafeShutdown || (op == HalfClose && ok))
    case RawClose(op, ok) => tls == NO_TLS && (op == SafeShutdown || (op == Close && ok))
    case Leaving(op, outcome) => !op.Transfer? && Whole(tls) && LeftBehind(op, outcome, sh)
    case SsLook => Whole(tls)
    case SsStart => Whole(tls) && tls.enabled
    case SsArm => Whole(tls) && tls.enabled
    case SsAwait(_) => Whole(tls) && tls.enabled
    case _ => true
  }

  /** `clear_ssl` half way through. */
  predicate CutTo(tls: Tls, at: nat) {
    && at <= 2
    && tls.enabled == (at == 0)
    && tls.stream.Some? == (at <= 1)
    && tls.ctx.Some?
  }

  /** What a call that still holds its reservation has achieved. */
  predicate LeftBehind(op: Purpose, outcome: Outcome, sh: Shared) {
    match op
    case Connect => outcome == Done ==> sh.open
    case Handshake => match outcome { case Done => sh.open && sh.tls.enabled case Failed => sh.tls == NO_TLS case Refused => true }
    case Close => sh.tls == NO_TLS && (outcome == Done ==> !sh.open)
    case HalfClose => sh.tls == NO_TLS
    case SafeShutdown => sh.tls == NO_TLS && (outcome == Done ==> !sh.open)
    case _ => true
  }

  /** The strand, seen from the call that started the shutdown. */
  predicate StrandOk(c: Call, tls: Tls) {
    match c.closing
    case None => !c.prog.SsArm? && !c.prog.SsAwait? && !(c.prog.Clear? && c.prog.op == SafeShutdown)
    case Some(k) =>
      && (k.done <==> k.handler == Finished || k.handler == NotStarted)
      && (k.handler == NotStarted ==> k.timer == Unarmed)
      && (k.handler == Waiting ==> k.ecOk)
      && (k.timer == Marked ==> k.handler == Waiting)
      && (k.timedOut ==> k.timer == Marked || k.timer == Over)
      && (!k.done ==> (c.prog.SsArm? || c.prog.SsAwait?) && k.stream.Some? && k.stream == tls.stream)
      && (k.timer == Armed && !k.done ==> c.prog.SsAwait?)
      && (c.prog.SsArm? ==> k.timer == Unarmed && k.handler != NotStarted)
      && (c.prog.SsAwait? && c.prog.ok ==> k.handler != NotStarted)
      && (SaysSuccess(c.prog) ==> k.handler == Finished && !k.timedOut && k.ecOk)
      && !OnTheWay(c.prog)
  }

  /** Inside `safe_shutdown` and before its shutdown is started. */
  predicate OnTheWay(p: Prog) {
    p == Entered(SafeShutdown) || p.SsRetry? || p.SsDraining? || p.SsLook? || p.SsStart?
  }

  predicate SaysSuccess(p: Prog) {
    match p
    case Clear(SafeShutdown, _, ok) => ok
    case RawShut(SafeShutdown, ok) => ok
    case RawClose(SafeShutdown, ok) => ok
    case Leaving(SafeShutdown, outcome) => outcome == Done
    case _ => false
  }

  predicate CallOk(c: Call, sh: Shared, q: G.Point) {
    Agrees(c.prog, q) && Knows(c.prog, sh) && StrandOk(c, sh.tls)
  }

  ghost predicate NobodyOwns(s: Socket) {
    forall t :: !Owns(CallOf(s, t).prog)
  }

  ghost predicate Inv(s: Socket) {
    && G.Inv(s.gate)
    && (forall t :: CallOk(CallOf(s, t), s.shared, G.PointOf(s.gate, t)))
    && (NobodyOwns(s) ==> Whole(s.shared.tls))
  }

  lemma InitialInv()
    ensures Inv(INITIAL)
  {
    G.InitialInv();
  }

  // --- Every step keeps the invariant ---------------------------------------------

  lemma WorkOk(c: Call, sh: Shared, q: G.Point, ch: Choice)
    requires CallOk(c, sh, q) && CanWork(c)
    ensures var e := Work(c, sh, ch); CallOk(e.call, e.shared, q) && Owns(e.call.prog) == Owns(c.prog)
    ensures Work(c, sh, ch).shared != sh ==> Owns(c.prog)
  {
    if IsJob(c.prog) {
      JobWorkOk(c, sh, q, ch);
    } else if c.prog.SsArm? {
      ArmWorkOk(c, sh, q, ch);
    } else if c.prog.SsLook? || c.prog.SsStart? {
      StartShutdownWorkOk(c, sh, q, ch);
    } else if c.prog.SsAwait? {
      AwaitWorkOk(c, sh, q, ch);
    } else if c.prog.Clear? || c.prog.ClosingTls? {
      ClearWorkOk(c, sh, q, ch);
    } else if c.prog.RawShut? {
      RawShutWorkOk(c, sh, q, ch);
    } else if c.prog.RawClose? {
      RawCloseWorkOk(c, sh, q, ch);
    } else {
      HandshakeWorkOk(c, sh, q, ch);
    }
  }

  lemma JobWorkOk(c: Call, sh: Shared, q: G.Point, ch: Choice)
    requires CallOk(c, sh, q) && CanWork(c) && IsJob(c.prog)
    ensures var e := Work(c, sh, ch); CallOk(e.call, e.shared, q) && IsJob(e.call.prog) && e.shared == sh
  {
  }

  lemma HandshakeWorkOk(c: Call, sh: Shared, q: G.Point, ch: Choice)
    requires CallOk(c, sh, q)
    requires c.prog.Connecting? || c.prog.HsEnter? || c.prog.HsContext? || c.prog.HsStream? || c.prog.HsEnable? || c.prog.HsShake?
    ensures var e := Work(c, sh, ch); CallOk(e.call, e.shared, q) && HoldsExclusive(e.call.prog)
  {
    if c.prog.HsContext? || c.prog.HsStream? || c.prog.HsEnable? {
      InstallWorkOk(c, sh, q, ch);
    } else if c.prog.HsEnter? {
      HsEnterWorkOk(c, sh, q, ch);
    }
  }

  lemma HsEnterWorkOk(c: Call, sh: Shared, q: G.Point, ch: Choice)
    requires CallOk(c, sh, q) && c.prog.HsEnter?
    ensures var e := Work(c, sh, ch); CallOk(e.call, e.shared, q) && HoldsExclusive(e.call.prog)
  {
  }

  lemma InstallWorkOk(c: Call, sh: Shared, q: G.Point, ch: Choice)
    requires CallOk(c, sh, q) && (c.prog.HsContext? || c.prog.HsStream? || c.prog.HsEnable?)
    ensures var e := Work(c, sh, ch); CallOk(e.call, e.shared, q) && HoldsExclusive(e.call.prog)
  {
  }

  lemma ClearWorkOk(c: Call, sh: Shared, q: G.Point, ch: Choice)
    requires CallOk(c, sh, q) && (c.prog.Clear? || c.prog.ClosingTls?)
    ensures var e := Work(c, sh, ch); CallOk(e.call, e.shared, q) && Owns(e.call.prog)
  {
    if c.prog.ClosingTls? {
      ClosingTlsOk(c, sh, q, ch);
    } else if c.prog.at < 2 {
      CutWorkOk(c, sh, q, ch);
    } else {
      ClearedOk(c, sh, q, ch);
    }
  }

  lemma ClosingTlsOk(c: Call, sh: Shared, q: G.Point, ch: Choice)
    requires CallOk(c, sh, q) && c.prog.ClosingTls?
    ensures var e := Work(c, sh, ch); CallOk(e.call, e.shared, q) && Owns(e.call.prog)
  {
  }

  lemma CutWorkOk(c: Call, sh: Shared, q: G.Point, ch: Choice)
    requires CallOk(c, sh, q) && c.prog.Clear? && c.prog.at < 2
    ensures var e := Work(c, sh, ch); CallOk(e.call, e.shared, q) && Owns(e.call.prog)
  {
  }

  lemma ClearedOk(c: Call, sh: Shared, q: G.Point, ch: Choice)
    requires CallOk(c, sh, q) && c.prog.Clear? && c.prog.at == 2
    ensures var e := Work(c, sh, ch); CallOk(e.call, e.shared, q) && Owns(e.call.prog)
  {
  }

  lemma RawShutWorkOk(c: Call, sh: Shared, q: G.Point, ch: Choice)
    requires CallOk(c, sh, q) && c.prog.RawShut?
    ensures var e := Work(c, sh, ch); CallOk(e.call, e.shared, q) && Owns(e.call.prog)
  {
  }

  lemma RawCloseWorkOk(c: Call, sh: Shared, q: G.Point, ch: Choice)
    requires CallOk(c, sh, q) && c.prog.RawClose?
    ensures var e := Work(c, sh, ch); CallOk(e.call, e.shared, q) && Owns(e.call.prog)
  {
  }

  lemma StartShutdownWorkOk(c: Call, sh: Shared, q: G.Point, ch: Choice)
    requires CallOk(c, sh, q) && CanWork(c) && (c.prog.SsLook? || c.prog.SsStart?)
    ensures var e := Work(c, sh, ch); CallOk(e.call, e.shared, q) && HoldsDrain(e.call.prog)
  {
  }

  lemma ArmWorkOk(c: Call, sh: Shared, q: G.Point, ch: Choice)
    requires CallOk(c, sh, q) && CanWork(c) && c.prog.SsArm?
    ensures var e := Work(c, sh, ch); CallOk(e.call, e.shared, q) && HoldsDrain(e.call.prog)
  {
  }

  lemma AwaitWorkOk(c: Call, sh: Shared, q: G.Point, ch: Choice)
    requires CallOk(c, sh, q) && CanWork(c) && c.prog.SsAwait?
    ensures var e := Work(c, sh, ch); CallOk(e.call, e.shared, q) && HoldsDrain(e.call.prog)
  {
  }

  lemma HandleOk(c: Call, sh: Shared, q: G.Point, ch: Choice)
    requires CallOk(c, sh, q) && c.closing.Some? && CanHandle(c.closing.value)
    ensures CallOk(c.(closing := Some(Handle(c.closing.value, ch))), sh, q)
  {
  }

  lemma TimeOk(c: Call, sh: Shared, q: G.Point, ch: Choice)
    requires CallOk(c, sh, q) && c.closing.Some? && CanTime(c.closing.value)
    ensures var r := Time(c.closing.value, sh, ch); CallOk(c.(closing := Some(r.0)), r.1, q)
    ensures Time(c.closing.value, sh, ch).1 != sh ==> Owns(c.prog)
    ensures Time(c.closing.value, sh, ch).1.tls == sh.tls
  {
  }

  /** A call that is neither an owner nor active knows nothing that an owner can
      change. */
  lemma Unaffected(c: Call, sh: Shared, sh': Shared, q: G.Point)
    requires CallOk(c, sh, q) && !G.Owner(q) && !G.Active(q)
    ensures CallOk(c, sh', q)
  {
  }

  /** An access leads a call from one consistent position to another.  The last
      premise: whoever is admitted finds the pointers whole. */
  lemma AccessOk(c: Call, sh: Shared, g: G.Gate, t: Token)
    requires CallOk(c, sh, G.PointOf(g, t)) && AccessOf(c.prog).Some?
    requires G.Enabled(g, G.Event(t, AccessOf(c.prog).value))
    requires var q := G.PointOf(G.Next(g, G.Event(t, AccessOf(c.prog).value)), t);
             !Owns(c.prog) && !IsJob(c.prog) && (q.IoActive? || G.Owner(q)) ==> Whole(sh.tls)
    ensures var q := G.PointOf(G.Next(g, G.Event(t, AccessOf(c.prog).value)), t);
            CallOk(c.(prog := AfterAccess(c.prog, q, sh.tls)), sh, q)
  {
    if c.prog.SsRetry? || c.prog == Entered(SafeShutdown) {
      DrainBeginOk(c, sh, g, t);
    } else if c.prog.Entered? {
      EnteredOk(c, sh, g, t);
    } else if c.prog.Begun? && c.prog.op.Transfer? {
      BegunIoOk(c, sh, g, t);
    } else if c.prog.Begun? || c.prog.SsDraining? {
      BegunOk(c, sh, g, t);
    } else if IsJob(c.prog) {
      JobEndOk(c, sh, g, t);
    } else {
      EndOk(c, sh, g, t);
    }
  }

  lemma JobEndOk(c: Call, sh: Shared, g: G.Gate, t: Token)
    requires CallOk(c, sh, G.PointOf(g, t)) && IsJob(c.prog) && G.Enabled(g, G.Event(t, G.Finish))
    ensures var q := G.PointOf(G.Next(g, G.Event(t, G.Finish)), t);
            CallOk(c.(prog := AfterAccess(c.prog, q, sh.tls)), sh, q)
  {
  }

  lemma EndOk(c: Call, sh: Shared, g: G.Gate, t: Token)
    requires CallOk(c, sh, G.PointOf(g, t)) && (c.prog.Releasing? || c.prog.Leaving?)
    requires G.Enabled(g, G.Event(t, AccessOf(c.prog).value))
    ensures var q := G.PointOf(G.Next(g, G.Event(t, AccessOf(c.prog).value)), t);
            CallOk(c.(prog := AfterAccess(c.prog, q, sh.tls)), sh, q)
  {
  }

  lemma DrainBeginOk(c: Call, sh: Shared, g: G.Gate, t: Token)
    requires CallOk(c, sh, G.PointOf(g, t)) && (c.prog.SsRetry? || c.prog == Entered(SafeShutdown))
    requires G.Enabled(g, G.Event(t, G.BeginDrain))
    ensures var q := G.PointOf(G.Next(g, G.Event(t, G.BeginDrain)), t);
            CallOk(c.(prog := AfterAccess(c.prog, q, sh.tls)), sh, q)
  {
  }

  lemma EnteredOk(c: Call, sh: Shared, g: G.Gate, t: Token)
    requires CallOk(c, sh, G.PointOf(g, t)) && c.prog.Entered? && c.prog.op != SafeShutdown
    requires G.Enabled(g, G.Event(t, AccessOf(c.prog).value))
    ensures var q := G.PointOf(G.Next(g, G.Event(t, AccessOf(c.prog).value)), t);
            CallOk(c.(prog := AfterAccess(c.prog, q, sh.tls)), sh, q)
  {
  }

  lemma BegunIoOk(c: Call, sh: Shared, g: G.Gate, t: Token)
    requires CallOk(c, sh, G.PointOf(g, t)) && c.prog.Begun? && c.prog.op.Transfer?
    requires G.Enabled(g, G.Event(t, G.Step))
    requires var q := G.PointOf(G.Next(g, G.Event(t, G.Step)), t); q.IoActive? ==> Whole(sh.tls)
    ensures var q := G.PointOf(G.Next(g, G.Event(t, G.Step)), t);
            CallOk(c.(prog := AfterAccess(c.prog, q, sh.tls)), sh, q)
  {
  }

  lemma BegunOk(c: Call, sh: Shared, g: G.Gate, t: Token)
    requires CallOk(c, sh, G.PointOf(g, t)) && ((c.prog.Begun? && !c.prog.op.Transfer?) || c.prog.SsDraining?)
    requires G.Enabled(g, G.Event(t, G.Step))
    requires var q := G.PointOf(G.Next(g, G.Event(t, G.Step)), t); q.IoActive? || G.Owner(q) ==> Whole(sh.tls)
    ensures var q := G.PointOf(G.Next(g, G.Event(t, G.Step)), t);
            CallOk(c.(prog := AfterAccess(c.prog, q, sh.tls)), sh, q)
  {
  }

  lemma StepKeepsInv(s: Socket, t: Token, a: Action)
    requires Inv(s) && Enabled(s, t, a)
    ensures Inv(Next(s, t, a))
  {
    var c := CallOf(s, t);
    assert CallOk(c, s.shared, G.PointOf(s.gate, t));
    match a {
      case Enter(op) => OneCallMoves(s, t, Next(s, t, a));
      case Access => AccessKeepsInv(s, t);
      case GiveUp => GiveUpKeepsInv(s, t);
      case Do(ch) => WorkOk(c, s.shared, G.PointOf(s.gate, t), ch); OneCallMoves(s, t, Next(s, t, a));
      case OnHandler(ch) => HandleOk(c, s.shared, G.PointOf(s.gate, t), ch); OneCallMoves(s, t, Next(s, t, a));
      case OnTimer(ch) => TimeOk(c, s.shared, G.PointOf(s.gate, t), ch); OneCallMoves(s, t, Next(s, t, a));
    }
  }

  /** A step that leaves the gate alone. */
  lemma OneCallMoves(s: Socket, t: Token, s': Socket)
    requires Inv(s) && s'.gate == s.gate
    requires t in s'.calls && s'.calls == s.calls[t := s'.calls[t]]
    requires CallOk(s'.calls[t], s'.shared, G.PointOf(s.gate, t))
    requires Owns(s'.calls[t].prog) == Owns(CallOf(s, t).prog)
    requires s'.shared != s.shared ==> Owns(CallOf(s, t).prog)
    ensures Inv(s')
  {
    forall u ensures CallOk(CallOf(s', u), s'.shared, G.PointOf(s'.gate, u)) {
      assert CallOk(CallOf(s, u), s.shared, G.PointOf(s.gate, u));
      if u != t && s'.shared != s.shared {
        assert CallOk(CallOf(s, t), s.shared, G.PointOf(s.gate, t));
        G.MutualExclusion(s.gate, t, u);
        Unaffected(CallOf(s, u), s.shared, s'.shared, G.PointOf(s.gate, u));
      }
    }
    if NobodyOwns(s') {
      forall u ensures !Owns(CallOf(s, u).prog) {
        assert !Owns(CallOf(s', u).prog);
      }
      assert s'.shared == s.shared;
    }
  }

  /** The pointers are whole when a call is admitted: nobody else owns them. */
  lemma AdmittedMeetsWhole(s: Socket, t: Token, e: G.Event)
    requires Inv(s) && e.token == t && G.Enabled(s.gate, e)
    requires !Owns(CallOf(s, t).prog)
    requires var q := G.PointOf(G.Next(s.gate, e), t); q.IoActive? || G.Owner(q)
    ensures Whole(s.shared.tls)
  {
    var g := G.Next(s.gate, e);
    G.StepKeepsInv(s.gate, e);
    forall u ensures !Owns(CallOf(s, u).prog) {
      if u != t {
        assert CallOk(CallOf(s, u), s.shared, G.PointOf(s.gate, u));
        G.StaysPut(s.gate, e, u);
        G.MutualExclusion(g, t, u);
        G.MutualExclusion(g, u, t);
      }
    }
  }

  lemma AccessKeepsInv(s: Socket, t: Token)
    requires Inv(s) && Enabled(s, t, Access)
    ensures Inv(Next(s, t, Access))
  {
    var c := CallOf(s, t);
    var e := G.Event(t, AccessOf(c.prog).value);
    assert CallOk(c, s.shared, G.PointOf(s.gate, t));
    var q := G.PointOf(G.Next(s.gate, e), t);
    if !Owns(c.prog) && (q.IoActive? || G.Owner(q)) {
      AdmittedMeetsWhole(s, t, e);
    }
    AccessOk(c, s.shared, s.gate, t);
    GateMoves(s, t, e, Next(s, t, Access));
  }

  lemma GiveUpKeepsInv(s: Socket, t: Token)
    requires Inv(s) && Enabled(s, t, GiveUp)
    ensures Inv(Next(s, t, GiveUp))
  {
    assert CallOk(CallOf(s, t), s.shared, G.PointOf(s.gate, t));
    GateMoves(s, t, G.Event(t, G.Abandon), Next(s, t, GiveUp));
  }

  /** A step that leaves the pointers and the raw socket alone. */
  lemma GateMoves(s: Socket, t: Token, e: G.Event, s': Socket)
    requires Inv(s) && e.token == t && G.Enabled(s.gate, e) && s'.gate == G.Next(s.gate, e)
    requires s'.shared == s.shared
    requires t in s'.calls && s'.calls == s.calls[t := s'.calls[t]]
    requires CallOk(s'.calls[t], s.shared, G.PointOf(s'.gate, t))
    requires Owns(CallOf(s, t).prog) && !Owns(s'.calls[t].prog) ==> Whole(s.shared.tls)
    ensures Inv(s')
  {
    G.StepKeepsInv(s.gate, e);
    OthersKeep(s, t, e, s');
    if NobodyOwns(s') && !Whole(s.shared.tls) {
      forall u ensures !Owns(CallOf(s, u).prog) {
        assert !Owns(CallOf(s', u).prog);
      }
    }
  }

  lemma OthersKeep(s: Socket, t: Token, e: G.Event, s': Socket)
    requires Inv(s) && e.token == t && G.Enabled(s.gate, e) && s'.gate == G.Next(s.gate, e)
    requires s'.shared == s.shared
    requires t in s'.calls && s'.calls == s.calls[t := s'.calls[t]]
    requires CallOk(s'.calls[t], s.shared, G.PointOf(s'.gate, t))
    ensures forall u :: CallOk(CallOf(s', u), s'.shared, G.PointOf(s'.gate, u))
  {
    forall u ensures CallOk(CallOf(s', u), s'.shared, G.PointOf(s'.gate, u)) {
      if u != t {
        assert CallOk(CallOf(s, u), s.shared, G.PointOf(s.gate, u));
        G.StaysPut(s.gate, e, u);
      }
    }
  }

  lemma {:induction false} RunKeepsInv(s: Socket, es: seq<(Token, Action)>)
    requires Inv(s) && IsRun(s, es)
    ensures Inv(After(s, es))
    decreases es
  {
    if es != [] {
      StepKeepsInv(s, es[0].0, es[0].1);
      RunKeepsInv(Next(s, es[0].0, es[0].1), es[1..]);
    }
  }
}
