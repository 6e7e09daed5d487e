/** What asynchronous operations deliver, told from the events of a run.

    A state object is compared with the payloads that arrived, the bytes that were
    sent and the arguments of the completion handlers, not with the records that
    the objects themselves keep.
 */
module AsyncOutcome {
  import opened Wrappers
  import opened Tally
  import opened Streambuf
  import opened AsyncState
  import opened AsyncOps
  import G = SocketGate
  import AsyncSafety

  // --- Calls ---------------------------------------------------------------------------

  /** `read_until` is refused exactly while an operation on the state object is
      pending, and then touches nothing; the other initiators start on a new object. */
  lemma CallRefused(w: World, t: Token, kind: Kind, sock: nat, obj: nat)
    requires Enabled(w, Call(t, kind, sock, obj))
    ensures var w' := Next(w, Call(t, kind, sock, obj));
            && t in w'.ops && w'.ops[t].kind == kind && w'.ops[t].sock == sock && w'.ops[t].obj == obj
            && w'.ops[t].phase == (if kind == ReadUntil && w.objs[obj].core.init && !w.objs[obj].core.hasDone then Threw else Beginning)
            && (kind == ReadUntil ==> w'.objs == w.objs)
  {
  }

  /** A state object from `create_async_state` answers no getter, and `read_until`
      accepts it. */
  lemma NewStateReady(w: World, obj: nat, t: Token, sock: nat, max: Option<real>)
    requires Enabled(w, NewState(obj)) && t !in w.ops && G.PointOf(GateOf(w, sock), t) == G.Idle
    ensures var w' := Next(w, NewState(obj));
            && obj in w'.objs && !Answered(w'.objs[obj], max).answer.Text? && Available(w'.objs[obj].core) == 0
            && Enabled(w', Call(t, ReadUntil, sock, obj))
            && Next(w', Call(t, ReadUntil, sock, obj)).ops[t].phase == Beginning
  {
  }

  /** An operation runs exactly when its launch returned normally; `write` and
      `send_to` have then put their text, and nothing else, into the buffer. */
  lemma LaunchDecides(w: World, t: Token, ok: bool, room: nat)
    requires Reachable(w) && Enabled(w, Advance(t, Launch(ok, room)))
    ensures var w' := Next(w, Advance(t, Launch(ok, room)));
            && w'.ops[t].phase == (if ok then Pending else Catching)
            && (Sends(w.ops[t].kind) ==> w'.objs[w.ops[t].obj].core.data == TextOf(w.ops[t].kind))
  {
    ReachableInv(w);
    assert OpAt(w, t);
  }

  /** No operation is ever stuck: there is always a next step of its own that it can
      take, until it has completed or thrown.  A pending one waits for its handler. */
  lemma NeverStuck(w: World, t: Token)
    requires Reachable(w) && t in w.ops
    requires w.ops[t].phase != Completed && w.ops[t].phase != Threw && w.ops[t].phase != Pending
    ensures match w.ops[t].phase
            case Setting => Enabled(w, Advance(t, Set))
            case Launching => Enabled(w, Advance(t, Launch(false, 0)))
            case Restoring => Enabled(w, Advance(t, Restore))
            case Stored(_) => Enabled(w, Advance(t, StoreEc))
            case Publishing => Enabled(w, Advance(t, Publish))
            case _ => Enabled(w, Access(t))
  {
    ReachableInv(w);
    assert OpAt(w, t);
    if w.ops[t].phase.Beginning? || w.ops[t].phase.Catching? || w.ops[t].phase.CatchEnding? || w.ops[t].phase.Leaving?
       || w.ops[t].phase.Ending? {
      AccessPossible(w.ops[t], GateOf(w, w.ops[t].sock), t);
    }
  }

  lemma AccessPossible(op: Op, g: G.Gate, t: Token)
    requires PointOk(op, G.PointOf(g, t))
    requires op.phase.Beginning? || op.phase.Catching? || op.phase.CatchEnding? || op.phase.Leaving? || op.phase.Ending?
    ensures var a := AccessOf(op, G.PointOf(g, t)); a.Some? && G.Enabled(g, G.Event(t, a.value))
  {
  }

  // --- Completions ------------------------------------------------------------------------

  /** What a handler was given, and the data it leaves in the buffer. */
  datatype Outcome = Outcome(bytes: nat, ec: Ec, data: seq<byte>)

  /** The handler of operation `t` has stored this outcome, and until the publication
      keeps it to itself. */
  ghost predicate Carries(w: World, t: Token, r: Outcome) {
    && t in w.ops && w.ops[t].obj in w.objs
    && var (op, s) := (w.ops[t], w.objs[w.ops[t].obj].core);
       && (op.phase.Stored? || op.phase.Leaving? || op.phase.Ending? || op.phase.Publishing? || op.phase.Completed?)
       && (if op.phase.Stored? then op.phase.ec == r.ec else s.ec == r.ec)
       && (!Exclusive(op.kind) ==> s.bytes == r.bytes)
       && s.data == r.data
       && (s.isRead <==> op.kind.ReadUntil? || Commits(op.kind))
       && (s.hasDone <==> op.phase.Completed?)
  }

  /** `read` and `receive_from` commit what they were given, `read_until` finds it in
      the buffer, `send_to` consumes what was sent. */
  function Left(k: Kind, data: seq<byte>, bytes: nat, payload: seq<byte>): seq<byte> {
    if Commits(k) then data + payload
    else if k.SendTo? && bytes <= |data| then data[bytes..]
    else data
  }

  lemma HandleCarries(w: World, t: Token, bytes: nat, payload: seq<byte>, ec: Ec)
    requires Inv(w) && Enabled(w, Advance(t, Handle(bytes, payload, ec)))
    ensures Carries(Next(w, Advance(t, Handle(bytes, payload, ec))), t,
                    Outcome(bytes, ec, Left(w.ops[t].kind, w.objs[w.ops[t].obj].core.data, bytes, payload)))
  {
    assert OpAt(w, t);
    assert payload[..|payload|] == payload;
  }

  /** No getter takes from the published object, and no `read_until` starts on it. */
  predicate Untouched(w: World, es: seq<Action>, obj: nat)
    requires IsRun(w, es)
    decreases es
  {
    es != [] ==>
      && !Touches(w, es[0], obj)
      && Untouched(Next(w, es[0]), es[1..], obj)
  }

  predicate Touches(w: World, a: Action, obj: nat)
    requires Enabled(w, a)
  {
    || (a.Get? && a.obj == obj && w.objs[obj].core.hasDone)
    || (a.Advance? && a.stage.Set? && w.ops[a.t].obj == obj)
  }

  lemma CarryStep(w: World, a: Action, t: Token, r: Outcome)
    requires Inv(w) && Enabled(w, a) && Carries(w, t, r) && !Touches(w, a, w.ops[t].obj)
    ensures Carries(Next(w, a), t, r) && Next(w, a).ops[t].kind == w.ops[t].kind && Next(w, a).ops[t].obj == w.ops[t].obj
  {
    if a.Access? && a.t == t {
      OwnAccessCarries(w, t, r);
    } else if a.Advance? && a.t == t {
      OwnStageCarries(w, a.stage, t, r);
    } else {
      OthersSpare(w, a, t);
    }
  }

  /** What the other operations and the script leave alone. */
  lemma OthersSpare(w: World, a: Action, t: Token)
    requires Inv(w) && Enabled(w, a) && t in w.ops && w.ops[t].obj in w.objs && !Touches(w, a, w.ops[t].obj)
    requires !(a.Access? && a.t == t) && !(a.Advance? && a.t == t)
    requires w.ops[t].phase != Pending && (InFlight(w.ops[t]) || w.objs[w.ops[t].obj].core.hasDone)
    ensures t in Next(w, a).ops && Next(w, a).ops[t] == w.ops[t] && w.ops[t].obj in Next(w, a).objs
    ensures Next(w, a).objs[w.ops[t].obj].core == w.objs[w.ops[t].obj].core
  {
    if a.Advance? {
      OtherStageCarries(w, a.t, a.stage, t);
    } else if a.Get? && a.obj == w.ops[t].obj {
      assert ObjOk(w.objs[a.obj]);
      AnsweredOk(w.objs[a.obj], a.max);
    }
  }

  lemma OwnAccessCarries(w: World, t: Token, r: Outcome)
    requires Inv(w) && Enabled(w, Access(t)) && Carries(w, t, r)
    ensures Carries(Next(w, Access(t)), t, r)
    ensures Next(w, Access(t)).ops[t].kind == w.ops[t].kind && Next(w, Access(t)).ops[t].obj == w.ops[t].obj
  {
    assert OpAt(w, t);
  }

  lemma OwnStageCarries(w: World, stage: Stage, t: Token, r: Outcome)
    requires Inv(w) && Enabled(w, Advance(t, stage)) && Carries(w, t, r)
    ensures Carries(Next(w, Advance(t, stage)), t, r)
    ensures Next(w, Advance(t, stage)).ops[t].kind == w.ops[t].kind && Next(w, Advance(t, stage)).ops[t].obj == w.ops[t].obj
  {
    assert OpAt(w, t);
  }

  /** Another operation leaves the object alone. */
  lemma OtherStageCarries(w: World, u: Token, stage: Stage, t: Token)
    requires Inv(w) && Enabled(w, Advance(u, stage)) && t in w.ops && u != t && w.ops[t].obj in w.objs
    requires w.ops[t].phase != Pending && (InFlight(w.ops[t]) || w.objs[w.ops[t].obj].core.hasDone)
    requires !Touches(w, Advance(u, stage), w.ops[t].obj)
    ensures Next(w, Advance(u, stage)).objs[w.ops[t].obj] == w.objs[w.ops[t].obj]
  {
    assert OpAt(w, u);
    if w.ops[u].obj == w.ops[t].obj {
      if InFlight(w.ops[t]) {
        NotBoth(w, t, u);
        IdleStage(w.ops[u], w.objs[w.ops[u].obj], stage);
      } else {
        AsyncSafety.OnlySetOnDone(w.ops[u], w.objs[w.ops[u].obj], stage);
      }
    }
  }

  lemma IdleStage(op: Op, o: Obj, stage: Stage)
    requires CanDo(op, o, stage) && !InFlight(op)
    ensures op.phase.Setting?
  {
  }

  lemma {:induction false} CarryRun(w: World, es: seq<Action>, t: Token, r: Outcome)
    requires Inv(w) && IsRun(w, es) && Carries(w, t, r) && Untouched(w, es, w.ops[t].obj)
    ensures Carries(After(w, es), t, r)
    ensures After(w, es).ops[t].kind == w.ops[t].kind && After(w, es).ops[t].obj == w.ops[t].obj
    decreases es
  {
    if es != [] {
      CarryStep(w, es[0], t, r);
      StepKeepsInv(w, es[0]);
      CarryRun(Next(w, es[0]), es[1..], t, r);
    }
  }

  /** World `v` is reached from world `w` by this completion and further steps that spare
      the published object. */
  ghost predicate Completes(w: World, t: Token, bytes: nat, payload: seq<byte>, ec: Ec, es: seq<Action>, v: World) {
    && Reachable(w) && Enabled(w, Advance(t, Handle(bytes, payload, ec)))
    && var w' := Next(w, Advance(t, Handle(bytes, payload, ec)));
       IsRun(w', es) && Untouched(w', es, w.ops[t].obj) && v == After(w', es)
  }

  /** Whatever happens between a completion and its publication, and afterwards to other
      objects: the operation publishes exactly what its handler was given.  Once it
      has completed, `has_done` is set, the error code and the number of bytes are
      those of the handler, and the buffer holds what it should. */
  lemma PublishedExact(w: World, t: Token, bytes: nat, payload: seq<byte>, ec: Ec, es: seq<Action>, v: World)
    requires Completes(w, t, bytes, payload, ec, es, v)
    ensures t in v.ops && v.ops[t].obj == w.ops[t].obj && w.ops[t].obj in v.objs && w.ops[t].obj in w.objs
    ensures v.objs[w.ops[t].obj].core.hasDone <==> v.ops[t].phase == Completed
    ensures v.ops[t].phase == Completed ==>
              var (s, k) := (v.objs[w.ops[t].obj].core, w.ops[t].kind);
              && s.ec == ec
              && (!Exclusive(k) ==> s.bytes == bytes)
              && s.data == Left(k, w.objs[w.ops[t].obj].core.data, bytes, payload)
              && (s.isRead <==> k.ReadUntil? || Commits(k))
  {
    ReachableInv(w);
    var w' := Next(w, Advance(t, Handle(bytes, payload, ec)));
    StepKeepsInv(w, Advance(t, Handle(bytes, payload, ec)));
    HandleCarries(w, t, bytes, payload, ec);
    CarryRun(w', es, t, Outcome(bytes, ec, Left(w.ops[t].kind, w.objs[w.ops[t].obj].core.data, bytes, payload)));
  }

  /** So the first `get_result` gives the bytes of that completion: for `read` and
      `receive_from` all that arrived, for `read_until` the first `bytes` of the
      buffer. */
  lemma FirstResult(w: World, t: Token, bytes: nat, payload: seq<byte>, ec: Ec, es: seq<Action>, v: World)
    requires Completes(w, t, bytes, payload, ec, es, v)
    requires w.ops[t].kind.ReadUntil? || Commits(w.ops[t].kind)
    ensures t in v.ops && w.ops[t].obj in v.objs && w.ops[t].obj in w.objs
    ensures v.ops[t].phase == Completed ==>
              var (before, got) := (w.objs[w.ops[t].obj].core.data, Answered(v.objs[w.ops[t].obj], None));
              if Commits(w.ops[t].kind) then got.answer == Text(payload) && got.state.data == []
              else bytes <= |before| && got.answer == Text(before[..bytes]) && got.state.data == before[bytes..]
  {
    PublishedExact(w, t, bytes, payload, ec, es, v);
    GivenBefore(w, t, bytes, payload, ec);
    if v.ops[t].phase == Completed {
      WholeResult(v.objs[w.ops[t].obj].core, bytes);
    }
    if Commits(w.ops[t].kind) {
      assert [] + payload == payload && payload[..bytes] == payload && payload[bytes..] == [];
    }
  }

  lemma GivenBefore(w: World, t: Token, bytes: nat, payload: seq<byte>, ec: Ec)
    requires Reachable(w) && Enabled(w, Advance(t, Handle(bytes, payload, ec)))
    ensures w.ops[t].obj in w.objs
    ensures Commits(w.ops[t].kind) ==> w.objs[w.ops[t].obj].core.data == [] && |payload| == bytes
    ensures w.ops[t].kind.ReadUntil? ==> bytes <= |w.objs[w.ops[t].obj].core.data|
  {
    ReachableInv(w);
    assert OpAt(w, t);
  }

  lemma WholeResult(s: State, bytes: nat)
    requires s.isRead && s.hasDone && s.bytes == bytes <= |s.data|
    ensures GetResult(s).answer == Text(s.data[..bytes]) && GetResult(s).state.data == s.data[bytes..]
  {
  }

  // --- Sending -----------------------------------------------------------------------------

  /** From the launch to the publication, the bytes sent followed by those in the buffer
      are the text. */
  lemma SendingExact(w: World, t: Token)
    requires Reachable(w) && t in w.ops && Sends(w.ops[t].kind) && Launched(w.ops[t].phase)
    ensures w.ops[t].obj in w.objs
    ensures w.objs[w.ops[t].obj].sent + w.objs[w.ops[t].obj].core.data == TextOf(w.ops[t].kind)
  {
    ReachableInv(w);
    assert OpAt(w, t);
  }

  /** A `write` that completes without error has sent its text, all of it and in order,
      and reports its length; a `send_to` has sent as much as it reports. */
  lemma CompletedSend(w: World, t: Token, bytes: nat, payload: seq<byte>, ec: Ec)
    requires Reachable(w) && Enabled(w, Advance(t, Handle(bytes, payload, ec))) && Sends(w.ops[t].kind)
    ensures var (op, o') := (w.ops[t], Next(w, Advance(t, Handle(bytes, payload, ec))).objs[w.ops[t].obj]);
            && o'.core.bytes == bytes
            && bytes <= |op.kind.text| && o'.sent == op.kind.text[..bytes]
            && (op.kind.Write? && ec == NoError ==> o'.sent == op.kind.text)
  {
    ReachableInv(w);
    assert OpAt(w, t);
    var (op, o) := (w.ops[t], w.objs[w.ops[t].obj]);
    assert o.sent + o.core.data == TextOf(op.kind);
    if op.kind.Write? {
      assert op.kind.text[..bytes] == o.sent;
      assert o.core.data == [] ==> o.sent + o.core.data == o.sent;
    } else {
      assert [] + o.core.data == o.core.data;
      assert [] + o.core.data[..bytes] == op.kind.text[..bytes];
    }
  }

  // --- All bytes ------------------------------------------------------------------------------

  /** What a stage puts into the buffer of its object, */
  function StageIn(k: Kind, stage: Stage): seq<byte> {
    match stage
    case Launch(_, _) => TextOf(k)
    case Chunk(payload, _) => payload
    case Handle(_, payload, _) => if Commits(k) then payload else []
    case _ => []
  }

  /** and what it takes out of it. */
  function StageOut(k: Kind, data: seq<byte>, stage: Stage): seq<byte> {
    match stage
    case Sent(n) => data[..Min(n, |data|)]
    case Handle(bytes, _, _) => if k.SendTo? then data[..Min(bytes, |data|)] else []
    case _ => []
  }

  function Incoming(w: World, a: Action, obj: nat): seq<byte>
    requires Enabled(w, a)
  {
    if a.Advance? && w.ops[a.t].obj == obj then StageIn(w.ops[a.t].kind, a.stage) else []
  }

  /** Handed to the script, or sent to the peer. */
  function Outgoing(w: World, a: Action, obj: nat): seq<byte>
    requires Enabled(w, a) && obj in w.objs
  {
    if a.Get? && a.obj == obj then Delivered(Answered(w.objs[obj], a.max).answer)
    else if a.Advance? && w.ops[a.t].obj == obj then StageOut(w.ops[a.t].kind, w.objs[obj].core.data, a.stage)
    else []
  }

  function Inflow(w: World, es: seq<Action>, obj: nat): seq<byte>
    requires IsRun(w, es)
    decreases es
  {
    if es == [] then [] else Incoming(w, es[0], obj) + Inflow(Next(w, es[0]), es[1..], obj)
  }

  function Outflow(w: World, es: seq<Action>, obj: nat): seq<byte>
    requires IsRun(w, es)
    decreases es
  {
    if es == [] then []
    else (if obj in w.objs then Outgoing(w, es[0], obj) else []) + Outflow(Next(w, es[0]), es[1..], obj)
  }

  lemma StepBalances(w: World, a: Action, obj: nat)
    requires Inv(w) && Enabled(w, a) && obj in w.objs
    ensures obj in Next(w, a).objs
    ensures Outgoing(w, a, obj) + Next(w, a).objs[obj].core.data == w.objs[obj].core.data + Incoming(w, a, obj)
  {
    if a.Advance? {
      assert OpAt(w, a.t);
      if w.ops[a.t].obj == obj {
        StageBalances(w.ops[a.t], w.objs[obj], a.stage);
      }
    } else if a.Get? && a.obj == obj {
      assert ObjOk(w.objs[obj]);
      AnsweredOk(w.objs[obj], a.max);
    }
  }

  lemma StageBalances(op: Op, o: Obj, stage: Stage)
    requires ObjectKnown(op, o) && CanDo(op, o, stage)
    ensures StageOut(op.kind, o.core.data, stage) + Do(op, o, stage).obj.core.data == o.core.data + StageIn(op.kind, stage)
  {
    if stage.Handle? {
      HandleBalances(op, o, stage.bytes, stage.payload, stage.ec);
    }
  }

  lemma HandleBalances(op: Op, o: Obj, bytes: nat, payload: seq<byte>, ec: Ec)
    requires ObjectKnown(op, o) && CanDo(op, o, Handle(bytes, payload, ec))
    ensures var handle := Handle(bytes, payload, ec);
            StageOut(op.kind, o.core.data, handle) + Do(op, o, handle).obj.core.data == o.core.data + StageIn(op.kind, handle)
  {
    if Commits(op.kind) {
      assert payload[..|payload|] == payload;
    }
  }

  /** For every object and every run: the bytes that have left it, to the script or to
      the peer, followed by those it holds, are those it held followed by those that
      came in, in order. */
  lemma {:induction false} BytesBalance(w: World, es: seq<Action>, obj: nat)
    requires Inv(w) && IsRun(w, es) && obj in w.objs
    ensures obj in After(w, es).objs
    ensures Outflow(w, es, obj) + After(w, es).objs[obj].core.data == w.objs[obj].core.data + Inflow(w, es, obj)
    decreases es
  {
    if es != [] {
      var w' := Next(w, es[0]);
      StepBalances(w, es[0], obj);
      StepKeepsInv(w, es[0]);
      BytesBalance(w', es[1..], obj);
      Chain(w.objs[obj].core.data, Incoming(w, es[0], obj), Outgoing(w, es[0], obj), w'.objs[obj].core.data,
            Inflow(w', es[1..], obj), Outflow(w', es[1..], obj), After(w, es).objs[obj].core.data);
    }
  }
}
