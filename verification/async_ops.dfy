/** Asynchronous operations from the call to the published result.

    The script thread runs one initiator or getter at a time.  An initiator takes
    a reservation on its socket, sets the fields of the state object, and launches
    the operation; if the launch throws, a catch block gives the reservation back.
    The completion handler, on any thread and interleaved with everything else,
    stores its results, gives the reservation back and then publishes `has_done`.
    `read_until` is the only initiator that reuses a state object.

    A step is one access to a gate or one such stage.  Every state object carries
    the history of the bytes it has received and delivered.
 */
module AsyncOps {
  import opened Wrappers
  import opened Tally
  import opened Streambuf
  import opened AsyncState
  import G = SocketGate

  datatype Kind =
    | Accept | Connect | ConnectSsl
    | ReadUntil | Read(n: nat) | Write(text: seq<byte>)
    | ReceiveFrom(n: nat) | SendTo(text: seq<byte>)

  predicate Exclusive(k: Kind) { k.Accept? || k.Connect? || k.ConnectSsl? }

  predicate Sends(k: Kind) { k.Write? || k.SendTo? }

  /** Handlers that commit what they were given. */
  predicate Commits(k: Kind) { k.Read? || k.ReceiveFrom? }

  function DirOf(k: Kind): G.Direction { if Sends(k) then G.Write else G.Read }

  datatype Phase =
      // the initiator
    | Beginning | Setting | Launching
    | Catching | CatchEnding | Restoring
      // the handler
    | Pending | Stored(ec: Ec) | Leaving | Ending | Publishing
      // after the operation
    | Completed | Threw

  /** `saved` is the state object as `read_until` found it.  The three counters
      record how often the reservation was taken and by whom it was given back. */
  datatype Op = Op(kind: Kind, sock: nat, obj: nat, phase: Phase, saved: State,
                   begins: nat, handlerEnds: nat, catchEnds: nat)

  datatype Obj = Obj(core: State, received: seq<byte>, delivered: seq<byte>, sent: seq<byte>, outbound: bool)

  const NEW_STATE := State(false, false, false, false, 0, NoError, [], DELTA)

  datatype World = World(gates: map<nat, G.Gate>, objs: map<nat, Obj>, ops: map<Token, Op>, script: Option<Token>)

  const INITIAL := World(map[], map[], map[], None)

  function GateOf(w: World, k: nat): G.Gate {
    if k in w.gates then w.gates[k] else G.INITIAL
  }

  /** The script thread is inside the initiator. */
  predicate Initiating(p: Phase) {
    p.Beginning? || p.Setting? || p.Launching? || p.Catching? || p.CatchEnding? || p.Restoring?
  }

  /** The state object belongs to this operation: all of it for a new object, from
      the setting of the fields for `read_until`. */
  predicate InFlight(op: Op) {
    match op.phase
    case Beginning => op.kind != ReadUntil
    case Setting => false
    case Completed => false
    case Threw => false
    case _ => true
  }

  predicate Fresh(op: Op) { op.kind == ReadUntil && (op.phase.Beginning? || op.phase.Setting?) }

  /** In flight: the check at the head of `read_until`. */
  predicate Busy(s: State) { s.init && !s.hasDone }

  // --- Stages of one operation -------------------------------------------------------

  function NewObj(k: Kind): Obj {
    Obj(NEW_STATE.(init := true, isUdp := k.ReceiveFrom? || k.SendTo?, isRead := Commits(k)), [], [], [], Sends(k))
  }

  function BeginOf(k: Kind): G.Action {
    if Exclusive(k) then G.BeginExclusive else G.BeginIo(DirOf(k))
  }

  /** The access to the gate that the operation takes next. */
  function AccessOf(op: Op, q: G.Point): Option<G.Action> {
    match op.phase
    case Beginning => if q == G.Idle then Some(BeginOf(op.kind)) else Some(G.Step)
    case Catching => Some(G.Finish)
    case CatchEnding => Some(G.Step)
    case Leaving => Some(G.Finish)
    case Ending => Some(G.Step)
    case _ => None
  }

  predicate Held(k: Kind, q: G.Point) {
    if Exclusive(k) then q == G.ExHeld else q == G.IoActive(DirOf(k))
  }

  predicate Entering(k: Kind, q: G.Point) {
    if Exclusive(k) then q == G.ExFlagged || q == G.ExUndo
    else G.UsesDirection(q, DirOf(k)) && !q.IoActive? && !q.IoReleasing?
  }

  predicate GivingBack(k: Kind, q: G.Point) {
    if Exclusive(k) then q == G.ExReleasing else q == G.IoReleasing(DirOf(k))
  }

  function AfterAccess(op: Op, q: G.Point): Op {
    match op.phase
    case Beginning =>
      if q == G.Idle then op.(phase := Threw)
      else if Held(op.kind, q) then op.(phase := if op.kind == ReadUntil then Setting else Launching, begins := op.begins + 1)
      else op
    case Catching => op.(phase := CatchEnding, catchEnds := op.catchEnds + 1)
    case CatchEnding => if q == G.Idle then op.(phase := Restoring) else op
    case Leaving => op.(phase := Ending, handlerEnds := op.handlerEnds + 1)
    case Ending => if q == G.Idle then op.(phase := Publishing) else op
    case _ => op
  }

  datatype Stage =
    | Set                                             // read_until sets the fields
    | Launch(ok: bool, room: nat)                     // prepare and async_xxx
    | Chunk(payload: seq<byte>, room: nat)            // async_read_until commits some bytes
    | Sent(n: nat)                                    // async_write consumes some bytes
    | Handle(bytes: nat, payload: seq<byte>, ec: Ec)  // the handler stores the bytes
    | StoreEc
    | Restore                                         // the end of the catch block
    | Publish

  /** What the library promises about each stage: a launched `read` has prepared at
      least `n` bytes and receives at most `n`; `async_read_until` reports no length
      beyond its buffer, and none with an error; `async_write` takes bytes from the
      front, reports how many, and without an error has taken all. */
  predicate CanDo(op: Op, o: Obj, g: Stage) {
    match g
    case Set => op.phase.Setting?
    case Launch(ok, room) => op.phase.Launching? && (Commits(op.kind) && ok ==> room >= op.kind.n)
    case Chunk(_, _) => op.phase.Pending? && op.kind.ReadUntil?
    case Sent(_) => op.phase.Pending? && op.kind.Write?
    case Handle(bytes, payload, ec) =>
      op.phase.Pending? &&
      (match op.kind
       case Read(n) => |payload| == bytes <= n
       case ReceiveFrom(n) => |payload| == bytes <= n
       case ReadUntil => if ec == NoError then bytes <= |o.core.data| else bytes == 0
       case Write(_) => bytes == |o.sent| && (ec == NoError ==> o.core.data == [])
       case SendTo(_) => bytes <= |o.core.data|
       case _ => true)
    case StoreEc => op.phase.Stored?
    case Restore => op.phase.Restoring?
    case Publish => op.phase.Publishing?
  }

  datatype Local = Local(op: Op, obj: Obj)

  function Do(op: Op, o: Obj, g: Stage): Local
    requires CanDo(op, o, g)
  {
    var s := o.core;
    match g
    case Set =>
      Local(op.(phase := Launching, saved := s), o.(core := s.(init := true, isRead := true, hasDone := false, ec := NoError)))
    case Launch(ok, room) =>
      var data := if Sends(op.kind) then s.data + op.kind.text else s.data;
      Local(op.(phase := if ok then Pending else Catching), o.(core := s.(data := data, room := room)))
    case Chunk(payload, room) =>
      Local(op, o.(core := s.(data := s.data + payload, room := room), received := o.received + payload))
    case Sent(n) =>
      var k := Min(n, |s.data|);
      Local(op, o.(core := s.(data := s.data[k..]), sent := o.sent + s.data[..k]))
    case Handle(bytes, payload, ec) =>
      var stored := if Commits(op.kind) then
                      var k := Min(bytes, s.room);
                      o.(core := s.(data := s.data + payload[..k], room := s.room - k), received := o.received + payload)
                    else if op.kind.SendTo? then
                      var k := Min(bytes, |s.data|);
                      o.(core := s.(data := s.data[k..]), sent := o.sent + s.data[..k])
                    else o;
      Local(op.(phase := Stored(ec)),
            if Exclusive(op.kind) then stored else stored.(core := stored.core.(bytes := bytes)))
    case StoreEc => Local(op.(phase := Leaving), o.(core := s.(ec := op.phase.ec)))
    case Restore =>
      Local(op.(phase := Threw),
            if op.kind != ReadUntil then o
            else o.(core := s.(init := op.saved.init, isRead := op.saved.isRead, ec := op.saved.ec, hasDone := op.saved.hasDone)))
    case Publish => Local(op.(phase := Completed), o.(core := s.(hasDone := true)))
  }

  // --- Steps of the world --------------------------------------------------------------

  datatype Action =
    | NewState(obj: nat)                                   // create_async_state
    | Call(t: Token, kind: Kind, sock: nat, obj: nat)
    | Access(t: Token)
    | Advance(t: Token, stage: Stage)
    | Get(obj: nat, max: Option<real>)                     // get_result, or get_buffer(max)
    | Foreign(sock: nat, event: G.Event)                   // any other operation on a socket

  predicate Enabled(w: World, a: Action) {
    match a
    case NewState(obj) => w.script == None && obj !in w.objs
    case Call(t, kind, sock, obj) =>
      && w.script == None && t !in w.ops && G.PointOf(GateOf(w, sock), t) == G.Idle
      && (kind == ReadUntil <==> obj in w.objs)
    case Access(t) =>
      && t in w.ops
      && var q := G.PointOf(GateOf(w, w.ops[t].sock), t);
         AccessOf(w.ops[t], q).Some? && G.Enabled(GateOf(w, w.ops[t].sock), G.Event(t, AccessOf(w.ops[t], q).value))
    case Advance(t, stage) => t in w.ops && w.ops[t].obj in w.objs && CanDo(w.ops[t], w.objs[w.ops[t].obj], stage)
    case Get(obj, _) => w.script == None && obj in w.objs
    case Foreign(sock, event) => event.token !in w.ops && G.Enabled(GateOf(w, sock), event)
  }

  /** The initiator returns or throws. */
  function ScriptAfter(w: World, t: Token, op: Op): Option<Token> {
    if w.script == Some(t) && !Initiating(op.phase) then None else w.script
  }

  function NewOp(w: World, kind: Kind, sock: nat, obj: nat): Op {
    var refused := kind == ReadUntil && obj in w.objs && Busy(w.objs[obj].core);
    Op(kind, sock, obj, if refused then Threw else Beginning, NEW_STATE, 0, 0, 0)
  }

  function Answered(o: Obj, max: Option<real>): Got {
    match max
    case None => GetResult(o.core)
    case Some(m) => GetBuffer(o.core, m)
  }

  function Next(w: World, a: Action): World
    requires Enabled(w, a)
  {
    match a
    case NewState(obj) => w.(objs := w.objs[obj := Obj(NEW_STATE, [], [], [], false)])
    case Call(t, kind, sock, obj) =>
      var op := NewOp(w, kind, sock, obj);
      w.(ops := w.ops[t := op],
         objs := if kind == ReadUntil then w.objs else w.objs[obj := NewObj(kind)],
         script := if op.phase.Threw? then None else Some(t))
    case Access(t) =>
      var op := w.ops[t];
      var g := G.Next(GateOf(w, op.sock), G.Event(t, AccessOf(op, G.PointOf(GateOf(w, op.sock), t)).value));
      var op' := AfterAccess(op, G.PointOf(g, t));
      w.(gates := w.gates[op.sock := g], ops := w.ops[t := op'], script := ScriptAfter(w, t, op'))
    case Advance(t, stage) =>
      var op := w.ops[t];
      var l := Do(op, w.objs[op.obj], stage);
      w.(ops := w.ops[t := l.op], objs := w.objs[op.obj := l.obj], script := ScriptAfter(w, t, l.op))
    case Get(obj, max) =>
      var o := w.objs[obj];
      var got := Answered(o, max);
      w.(objs := w.objs[obj := o.(core := got.state, delivered := o.delivered + Delivered(got.answer))])
    case Foreign(sock, event) => w.(gates := w.gates[sock := G.Next(GateOf(w, sock), event)])
  }

  predicate IsRun(w: World, es: seq<Action>)
    decreases es
  {
    es != [] ==> Enabled(w, es[0]) && IsRun(Next(w, es[0]), es[1..])
  }

  function After(w: World, es: seq<Action>): World
    requires IsRun(w, es)
    decreases es
  {
    if es == [] then w else After(Next(w, es[0]), es[1..])
  }

  ghost predicate Reachable(w: World) {
    exists es :: IsRun(INITIAL, es) && After(INITIAL, es) == w
  }

  // --- The invariant --------------------------------------------------------------------

  /** A published result lies within the data, and nothing received is lost,
      duplicated or reordered.  Objects that were used for sending make no promise
      about bytes. */
  ghost predicate ObjOk(o: Obj) {
    && Readable(o.core)
    && (!o.outbound ==> o.delivered + o.core.data == o.received)
  }

  predicate PointOk(op: Op, q: G.Point) {
    match op.phase
    case Beginning => q == G.Idle || Entering(op.kind, q)
    case CatchEnding => GivingBack(op.kind, q)
    case Ending => GivingBack(op.kind, q)
    case Restoring => q == G.Idle
    case Publishing => q == G.Idle
    case Completed => q == G.Idle
    case Threw => q == G.Idle
    case _ => Held(op.kind, q)
  }

  predicate EndsOk(op: Op) {
    var counts := (op.begins, op.handlerEnds, op.catchEnds);
    match op.phase
    case Beginning => counts == (0, 0, 0)
    case CatchEnding => counts == (1, 0, 1)
    case Restoring => counts == (1, 0, 1)
    case Ending => counts == (1, 1, 0)
    case Publishing => counts == (1, 1, 0)
    case Completed => counts == (1, 1, 0)
    case Threw => counts == (0, 0, 0) || counts == (1, 0, 1)
    case _ => counts == (1, 0, 0)
  }

  /** From the launch to the publication. */
  predicate Launched(p: Phase) {
    p.Pending? || p.Stored? || p.Leaving? || p.Ending? || p.Publishing?
  }

  function TextOf(k: Kind): seq<byte> {
    match k case Write(text) => text case SendTo(text) => text case _ => []
  }

  /** What an operation may rely on about its state object. */
  predicate ObjectKnown(op: Op, o: Obj) {
    var s := o.core;
    && (op.phase.Setting? ==> op.kind.ReadUntil?)
    && (InFlight(op) && Sends(op.kind) ==> o.outbound)
    && (InFlight(op) ==> Busy(s) && (s.isRead <==> op.kind.ReadUntil? || Commits(op.kind)))
    && (Fresh(op) ==> !Busy(s))
    && (op.kind.ReadUntil? && (op.phase.Launching? || op.phase.Catching? || op.phase.CatchEnding? || op.phase.Restoring?) ==>
          && s == op.saved.(init := true, isRead := true, hasDone := false, ec := NoError, room := s.room)
          && Readable(op.saved) && !Busy(op.saved))
    && (!op.kind.ReadUntil? && InFlight(op) ==> (s.isUdp <==> op.kind.ReceiveFrom? || op.kind.SendTo?))
    && (Commits(op.kind) && (op.phase.Beginning? || op.phase.Launching? || op.phase.Pending?) ==> s.data == [])
    && (Sends(op.kind) && (op.phase.Beginning? || op.phase.Launching?) ==> s.data == [] && o.sent == [])
    && (op.kind.SendTo? && op.phase.Pending? ==> o.sent == [])
    && (Sends(op.kind) && Launched(op.phase) ==> o.sent + s.data == TextOf(op.kind))
    && (op.phase.Pending? && Commits(op.kind) ==> op.kind.n <= s.room)
    && (s.isRead && (op.phase.Stored? || op.phase.Leaving? || op.phase.Ending? || op.phase.Publishing?) ==> s.bytes <= |s.data|)
  }

  predicate OpOk(op: Op, o: Obj, q: G.Point, mine: bool) {
    PointOk(op, q) && EndsOk(op) && ObjectKnown(op, o) && (mine <==> Initiating(op.phase))
  }

  /** The same, in the world. */
  ghost predicate OpAt(w: World, t: Token)
    requires t in w.ops
  {
    var op := w.ops[t];
    op.obj in w.objs && OpOk(op, w.objs[op.obj], G.PointOf(GateOf(w, op.sock), t), w.script == Some(t))
  }

  ghost predicate Inv(w: World) {
    && (forall k :: G.Inv(GateOf(w, k)))
    && (forall o | o in w.objs :: ObjOk(w.objs[o]))
    && (forall t | t in w.ops :: OpAt(w, t))
    && (forall t, u | t in w.ops && u in w.ops && t != u && InFlight(w.ops[t]) && InFlight(w.ops[u]) :: w.ops[t].obj != w.ops[u].obj)
    && (w.script.Some? ==> w.script.value in w.ops)
  }

  lemma InitialInv()
    ensures Inv(INITIAL)
  {
    G.InitialInv();
  }

  // --- One operation ------------------------------------------------------------------------

  lemma DoOk(op: Op, o: Obj, g: Stage, q: G.Point, mine: bool)
    requires OpOk(op, o, q, mine) && ObjOk(o) && CanDo(op, o, g)
    ensures var l := Do(op, o, g);
            && OpOk(l.op, l.obj, q, mine && Initiating(l.op.phase))
            && ObjOk(l.obj)
            && (InFlight(op) || op.phase.Setting?)
            && l.op.kind == op.kind && l.op.sock == op.sock && l.op.obj == op.obj
  {
    match g {
      case Handle(bytes, payload, ec) => HandleOk(op, o, bytes, payload, ec, q, mine);
      case Chunk(payload, room) => Regroup(o.delivered, o.core.data, payload, o.core.data + payload);
      case _ =>
    }
  }

  lemma HandleOk(op: Op, o: Obj, bytes: nat, payload: seq<byte>, ec: Ec, q: G.Point, mine: bool)
    requires OpOk(op, o, q, mine) && ObjOk(o) && CanDo(op, o, Handle(bytes, payload, ec))
    ensures var l := Do(op, o, Handle(bytes, payload, ec));
            OpOk(l.op, l.obj, q, mine && Initiating(l.op.phase)) && ObjOk(l.obj)
  {
    if Commits(op.kind) {
      HandleReadOk(op, o, bytes, payload, ec, q, mine);
    } else if op.kind.SendTo? {
      HandleSendOk(op, o, bytes, payload, ec, q, mine);
    }
  }

  lemma HandleReadOk(op: Op, o: Obj, bytes: nat, payload: seq<byte>, ec: Ec, q: G.Point, mine: bool)
    requires OpOk(op, o, q, mine) && ObjOk(o) && CanDo(op, o, Handle(bytes, payload, ec)) && Commits(op.kind)
    ensures var l := Do(op, o, Handle(bytes, payload, ec));
            OpOk(l.op, l.obj, q, mine && Initiating(l.op.phase)) && ObjOk(l.obj)
  {
    assert payload[..Min(bytes, o.core.room)] == payload;
    Regroup(o.delivered, o.core.data, payload, o.core.data + payload);
  }

  lemma HandleSendOk(op: Op, o: Obj, bytes: nat, payload: seq<byte>, ec: Ec, q: G.Point, mine: bool)
    requires OpOk(op, o, q, mine) && ObjOk(o) && CanDo(op, o, Handle(bytes, payload, ec)) && op.kind.SendTo?
    ensures var l := Do(op, o, Handle(bytes, payload, ec));
            OpOk(l.op, l.obj, q, mine && Initiating(l.op.phase)) && ObjOk(l.obj)
  {
    assert o.core.data[..bytes] + o.core.data[bytes..] == o.core.data;
  }

  lemma AccessOk(op: Op, o: Obj, g: G.Gate, t: Token, mine: bool)
    requires OpOk(op, o, G.PointOf(g, t), mine)
    requires var a := AccessOf(op, G.PointOf(g, t)); a.Some? && G.Enabled(g, G.Event(t, a.value))
    ensures var q := G.PointOf(G.Next(g, G.Event(t, AccessOf(op, G.PointOf(g, t)).value)), t);
            var op' := AfterAccess(op, q);
            && OpOk(op', o, q, mine && Initiating(op'.phase))
            && (InFlight(op') ==> InFlight(op))
            && op'.kind == op.kind && op'.sock == op.sock && op'.obj == op.obj
  {
    if op.phase.Beginning? && Exclusive(op.kind) {
      BeginExclusiveOk(op, o, g, t, mine);
    } else if op.phase.Beginning? {
      BeginIoOk(op, o, g, t, mine);
    } else {
      EndAccessOk(op, o, g, t, mine);
    }
  }

  lemma EndAccessOk(op: Op, o: Obj, g: G.Gate, t: Token, mine: bool)
    requires OpOk(op, o, G.PointOf(g, t), mine) && !op.phase.Beginning?
    requires var a := AccessOf(op, G.PointOf(g, t)); a.Some? && G.Enabled(g, G.Event(t, a.value))
    ensures var q := G.PointOf(G.Next(g, G.Event(t, AccessOf(op, G.PointOf(g, t)).value)), t);
            var op' := AfterAccess(op, q);
            && OpOk(op', o, q, mine && Initiating(op'.phase))
            && (InFlight(op') ==> InFlight(op))
  {
  }

  lemma BeginExclusiveOk(op: Op, o: Obj, g: G.Gate, t: Token, mine: bool)
    requires OpOk(op, o, G.PointOf(g, t), mine) && op.phase.Beginning? && Exclusive(op.kind)
    requires var a := AccessOf(op, G.PointOf(g, t)); a.Some? && G.Enabled(g, G.Event(t, a.value))
    ensures var q := G.PointOf(G.Next(g, G.Event(t, AccessOf(op, G.PointOf(g, t)).value)), t);
            var op' := AfterAccess(op, q);
            && OpOk(op', o, q, mine && Initiating(op'.phase))
            && (InFlight(op') ==> InFlight(op))
  {
  }

  lemma BeginIoOk(op: Op, o: Obj, g: G.Gate, t: Token, mine: bool)
    requires OpOk(op, o, G.PointOf(g, t), mine) && op.phase.Beginning? && !Exclusive(op.kind)
    requires var a := AccessOf(op, G.PointOf(g, t)); a.Some? && G.Enabled(g, G.Event(t, a.value))
    ensures var q := G.PointOf(G.Next(g, G.Event(t, AccessOf(op, G.PointOf(g, t)).value)), t);
            var op' := AfterAccess(op, q);
            && OpOk(op', o, q, mine && Initiating(op'.phase))
            && (InFlight(op') ==> InFlight(op))
  {
  }

  // --- The whole world ------------------------------------------------------------------------

  lemma StepKeepsInv(w: World, a: Action)
    requires Inv(w) && Enabled(w, a)
    ensures Inv(Next(w, a))
  {
    match a
    case NewState(obj) => NewStateKeepsInv(w, obj);
    case Call(t, kind, sock, obj) => CallKeepsInv(w, t, kind, sock, obj);
    case Access(t) => AccessKeepsInv(w, t);
    case Advance(t, stage) => AdvanceKeepsInv(w, t, stage);
    case Get(obj, max) => GetKeepsInv(w, obj, max);
    case Foreign(sock, event) => ForeignKeepsInv(w, sock, event);
  }

  lemma NewStateKeepsInv(w: World, obj: nat)
    requires Inv(w) && Enabled(w, NewState(obj))
    ensures Inv(Next(w, NewState(obj)))
  {
    var w' := Next(w, NewState(obj));
    assert forall k :: GateOf(w', k) == GateOf(w, k);
    assert forall t | t in w.ops :: w'.objs[w.ops[t].obj] == w.objs[w.ops[t].obj];
  }

  lemma CallKeepsInv(w: World, t: Token, kind: Kind, sock: nat, obj: nat)
    requires Inv(w) && Enabled(w, Call(t, kind, sock, obj))
    ensures Inv(Next(w, Call(t, kind, sock, obj)))
  {
    var w' := Next(w, Call(t, kind, sock, obj));
    CallSparesRest(w, t, kind, sock, obj);
    CallOk(w, t, kind, sock, obj);
    forall u | u in w.ops
      ensures OpAt(w', u)
    {
      CallLeaves(w, t, kind, sock, obj, u);
    }
    forall u | u in w.ops && InFlight(w.ops[u]) && InFlight(w'.ops[t]) ensures w.ops[u].obj != obj {
      NewObjectIsOwn(w, t, kind, sock, obj, u);
    }
  }

  lemma NewObjectIsOwn(w: World, t: Token, kind: Kind, sock: nat, obj: nat, u: Token)
    requires Inv(w) && Enabled(w, Call(t, kind, sock, obj)) && u in w.ops
    requires InFlight(w.ops[u]) && InFlight(Next(w, Call(t, kind, sock, obj)).ops[t])
    ensures w.ops[u].obj != obj
  {
    assert OpAt(w, u);
    assert kind != ReadUntil;
  }

  /** Gates and other objects. */
  lemma CallSparesRest(w: World, t: Token, kind: Kind, sock: nat, obj: nat)
    requires Inv(w) && Enabled(w, Call(t, kind, sock, obj))
    ensures var w' := Next(w, Call(t, kind, sock, obj));
            && (forall k :: G.Inv(GateOf(w', k)))
            && (forall o | o in w'.objs :: ObjOk(w'.objs[o]))
            && w'.ops == w.ops[t := w'.ops[t]] && (w'.script.Some? ==> w'.script.value in w'.ops)
  {
    SameGates(w, Next(w, Call(t, kind, sock, obj)));
    CallOk(w, t, kind, sock, obj);
  }

  /** The new operation and its object. */
  lemma CallOk(w: World, t: Token, kind: Kind, sock: nat, obj: nat)
    requires Inv(w) && Enabled(w, Call(t, kind, sock, obj))
    ensures var w' := Next(w, Call(t, kind, sock, obj));
            obj in w'.objs && ObjOk(w'.objs[obj]) && OpAt(w', t)
  {
  }

  /** Nobody else is inside an initiator, so nobody notices the call. */
  lemma CallLeaves(w: World, t: Token, kind: Kind, sock: nat, obj: nat, u: Token)
    requires Inv(w) && Enabled(w, Call(t, kind, sock, obj)) && u in w.ops
    ensures var w' := Next(w, Call(t, kind, sock, obj));
            u in w'.ops && OpAt(w', u)
  {
  }

  lemma AccessKeepsInv(w: World, t: Token)
    requires Inv(w) && Enabled(w, Access(t))
    ensures Inv(Next(w, Access(t)))
  {
    AccessMovesOp(w, t);
    AccessMovesGate(w, t);
    OpMoves(w, Next(w, Access(t)), t);
  }

  lemma AccessMovesOp(w: World, t: Token)
    requires Inv(w) && Enabled(w, Access(t))
    ensures MovesOnly(w, Next(w, Access(t)), t)
  {
    var op := w.ops[t];
    assert OpAt(w, t) && ObjOk(w.objs[op.obj]);
    AccessOk(op, w.objs[op.obj], GateOf(w, op.sock), t, w.script == Some(t));
    var w' := Next(w, Access(t));
    Moved(w, w', t, Local(w'.ops[t], w.objs[op.obj]));
  }

  /** Operation `t` has moved and is consistent with its object; nothing else has
      changed, except perhaps gates. */
  ghost predicate MovesOnly(w: World, w': World, t: Token) {
    && t in w.ops && t in w'.ops
    && var (op, op') := (w.ops[t], w'.ops[t]);
       && w'.ops == w.ops[t := op']
       && op'.obj == op.obj && op'.sock == op.sock
       && op.obj in w'.objs && (w'.objs == w.objs || w'.objs == w.objs[op.obj := w'.objs[op.obj]])
       && ObjOk(w'.objs[op.obj])
       && w'.script == ScriptAfter(w, t, op')
       && OpAt(w', t)
       && (w'.objs != w.objs ==> InFlight(op) || op.phase.Setting?)
       && (InFlight(op') ==> InFlight(op) || op.phase.Setting?)
  }

  /** The gates after an access: consistent, and the same for everybody else. */
  lemma AccessMovesGate(w: World, t: Token)
    requires Inv(w) && Enabled(w, Access(t))
    ensures var w' := Next(w, Access(t));
            && (forall k :: G.Inv(GateOf(w', k)))
            && (forall u | u in w.ops && u != t ::
                  G.PointOf(GateOf(w', w.ops[u].sock), u) == G.PointOf(GateOf(w, w.ops[u].sock), u))
  {
    var op := w.ops[t];
    var g := GateOf(w, op.sock);
    var e := G.Event(t, AccessOf(op, G.PointOf(g, t)).value);
    assert G.Inv(g);
    G.StepFrame(g, e);
    GatesAfter(w, Next(w, Access(t)), op.sock, G.Next(g, e), t);
  }

  lemma GatesAfter(w: World, w': World, sock: nat, g: G.Gate, t: Token)
    requires Inv(w) && w'.gates == w.gates[sock := g]
    requires G.Inv(g) && forall u | u != t :: G.PointOf(g, u) == G.PointOf(GateOf(w, sock), u)
    ensures forall k :: G.Inv(GateOf(w', k))
    ensures forall u | u in w.ops && u != t ::
              G.PointOf(GateOf(w', w.ops[u].sock), u) == G.PointOf(GateOf(w, w.ops[u].sock), u)
  {
    forall k ensures G.Inv(GateOf(w', k)) {
      assert G.Inv(GateOf(w, k));
    }
  }

  lemma AdvanceKeepsInv(w: World, t: Token, stage: Stage)
    requires Inv(w) && Enabled(w, Advance(t, stage))
    ensures Inv(Next(w, Advance(t, stage)))
  {
    AdvanceMovesOp(w, t, stage);
    SameGates(w, Next(w, Advance(t, stage)));
    OpMoves(w, Next(w, Advance(t, stage)), t);
  }

  lemma AdvanceMovesOp(w: World, t: Token, stage: Stage)
    requires Inv(w) && Enabled(w, Advance(t, stage))
    ensures MovesOnly(w, Next(w, Advance(t, stage)), t)
  {
    var op := w.ops[t];
    assert OpAt(w, t) && ObjOk(w.objs[op.obj]);
    DoOk(op, w.objs[op.obj], stage, G.PointOf(GateOf(w, op.sock), t), w.script == Some(t));
    Moved(w, Next(w, Advance(t, stage)), t, Do(op, w.objs[op.obj], stage));
  }

  /** From one operation and its object to the world. */
  lemma Moved(w: World, w': World, t: Token, l: Local)
    requires t in w.ops && w.ops[t].obj in w.objs
    requires w'.ops == w.ops[t := l.op] && w'.script == ScriptAfter(w, t, l.op)
    requires w'.objs == w.objs[w.ops[t].obj := l.obj]
    requires l.op.obj == w.ops[t].obj && l.op.sock == w.ops[t].sock && ObjOk(l.obj)
    requires OpOk(l.op, l.obj, G.PointOf(GateOf(w', l.op.sock), t), w.script == Some(t) && Initiating(l.op.phase))
    requires w'.objs != w.objs ==> InFlight(w.ops[t]) || w.ops[t].phase.Setting?
    requires InFlight(l.op) ==> InFlight(w.ops[t]) || w.ops[t].phase.Setting?
    ensures MovesOnly(w, w', t)
  {
    assert w'.ops[t] == l.op && w'.objs[l.op.obj] == l.obj;
  }

  lemma SameGates(w: World, w': World)
    requires Inv(w) && w'.gates == w.gates
    ensures forall k :: G.Inv(GateOf(w', k))
    ensures forall k :: GateOf(w', k) == GateOf(w, k)
  {
    forall k ensures G.Inv(GateOf(w', k)) {
      assert G.Inv(GateOf(w, k));
    }
  }

  /** Nobody else is affected by an operation, because it is alone with its object. */
  lemma OpMoves(w: World, w': World, t: Token)
    requires Inv(w) && MovesOnly(w, w', t)
    requires forall k :: G.Inv(GateOf(w', k))
    requires forall u | u in w.ops && u != t ::
               G.PointOf(GateOf(w', w.ops[u].sock), u) == G.PointOf(GateOf(w, w.ops[u].sock), u)
    ensures Inv(w')
  {
    var op := w.ops[t];
    assert OpAt(w, t);
    forall u | u in w'.ops && u != t
      ensures OpAt(w', u)
      ensures InFlight(w'.ops[u]) && InFlight(w'.ops[t]) ==> w'.ops[u].obj != op.obj
    {
      OtherStays(w, w', t, u);
    }
  }

  lemma OtherStays(w: World, w': World, t: Token, u: Token)
    requires Inv(w) && MovesOnly(w, w', t) && u in w.ops && u != t
    requires G.PointOf(GateOf(w', w.ops[u].sock), u) == G.PointOf(GateOf(w, w.ops[u].sock), u)
    ensures OpAt(w', u)
    ensures InFlight(w'.ops[u]) && InFlight(w'.ops[t]) ==> w'.ops[u].obj != w.ops[t].obj
  {
    var op, other := w.ops[t], w.ops[u];
    assert OpAt(w, t);
    assert OpAt(w, u);
    if other.obj == op.obj && (InFlight(op) || op.phase.Setting?) {
      NotBoth(w, t, u);
      Indifferent(other, w.objs[op.obj], w'.objs[op.obj], G.PointOf(GateOf(w, other.sock), u), w.script == Some(u));
    } else if other.obj == op.obj {
      assert w'.objs == w.objs;
    }
  }

  /** Two operations on one object: at most one of them is in flight or has passed
      the check of `read_until`. */
  lemma NotBoth(w: World, t: Token, u: Token)
    requires Inv(w) && t in w.ops && u in w.ops && t != u && w.ops[t].obj == w.ops[u].obj
    requires InFlight(w.ops[t]) || w.ops[t].phase.Setting?
    ensures !InFlight(w.ops[u]) && !Fresh(w.ops[u])
  {
  }

  /** An operation that is over, or not yet begun, relies on nothing. */
  lemma Indifferent(op: Op, o: Obj, o': Obj, q: G.Point, mine: bool)
    requires OpOk(op, o, q, mine) && !InFlight(op) && !Fresh(op)
    ensures OpOk(op, o', q, mine)
  {
  }

  lemma AnsweredOk(o: Obj, max: Option<real>)
    requires ObjOk(o)
    ensures Hands(o.core, Answered(o, max)) && Amounts(o.core, max, Answered(o, max))
    ensures var got := Answered(o, max); ObjOk(o.(core := got.state, delivered := o.delivered + Delivered(got.answer)))
  {
    ResultHandsOut(o.core);
    match max {
      case None =>
      case Some(m) => BufferHandsOut(o.core, m);
    }
    var got := Answered(o, max);
    Regroup(o.delivered, Delivered(got.answer), got.state.data, o.core.data);
  }

  lemma Regroup(a: seq<byte>, b: seq<byte>, c: seq<byte>, d: seq<byte>)
    requires b + c == d
    ensures (a + b) + c == a + d
  {
  }

  lemma GetKeepsInv(w: World, obj: nat, max: Option<real>)
    requires Inv(w) && Enabled(w, Get(obj, max))
    ensures Inv(Next(w, Get(obj, max)))
  {
    var w' := Next(w, Get(obj, max));
    AnsweredOk(w.objs[obj], max);
    assert forall k :: GateOf(w', k) == GateOf(w, k);
    forall u | u in w.ops
      ensures OpAt(w', u)
    {
      var op := w.ops[u];
      assert OpAt(w, u);
      if op.obj == obj && !InFlight(op) {
        Indifferent(op, w.objs[obj], w'.objs[obj], G.PointOf(GateOf(w, op.sock), u), false);
      }
    }
  }

  lemma ForeignKeepsInv(w: World, sock: nat, e: G.Event)
    requires Inv(w) && Enabled(w, Foreign(sock, e))
    ensures Inv(Next(w, Foreign(sock, e)))
  {
    assert G.Inv(GateOf(w, sock));
    G.StepFrame(GateOf(w, sock), e);
    GatesOnly(w, Next(w, Foreign(sock, e)), sock, G.Next(GateOf(w, sock), e), e.token);
  }

  lemma GatesOnly(w: World, w': World, sock: nat, g: G.Gate, t: Token)
    requires Inv(w) && t !in w.ops && w' == w.(gates := w.gates[sock := g])
    requires G.Inv(g) && forall u | u != t :: G.PointOf(g, u) == G.PointOf(GateOf(w, sock), u)
    ensures Inv(w')
  {
    GatesAfter(w, w', sock, g, t);
    forall u | u in w'.ops ensures OpAt(w', u) {
      assert OpAt(w, u);
    }
  }

  lemma {:induction false} RunKeepsInv(w: World, es: seq<Action>)
    requires Inv(w) && IsRun(w, es)
    ensures Inv(After(w, es))
    decreases es
  {
    if es != [] {
      StepKeepsInv(w, es[0]);
      RunKeepsInv(Next(w, es[0]), es[1..]);
    }
  }

  lemma ReachableInv(w: World)
    requires Reachable(w)
    ensures Inv(w)
  {
    var es :| IsRun(INITIAL, es) && After(INITIAL, es) == w;
    InitialInv();
    RunKeepsInv(INITIAL, es);
  }
}
