/** What holds of asynchronous operations in every reachable state. */
module AsyncSafety {
  import opened Wrappers
  import opened Tally
  import opened Streambuf
  import opened AsyncState
  import opened AsyncOps
  import G = SocketGate

  // --- Bytes ------------------------------------------------------------------------------

  /** Over any run of launches, completions and getters: what an object has
      delivered, followed by what it still holds, is what it has received. */
  lemma BytesConserved(w: World, obj: nat)
    requires Reachable(w) && obj in w.objs && !w.objs[obj].outbound
    ensures w.objs[obj].delivered + w.objs[obj].core.data == w.objs[obj].received
  {
    ReachableInv(w);
    assert ObjOk(w.objs[obj]);
  }

  /** A getter never reads past the data, whatever was in flight before. */
  lemma GettersStayInside(w: World, obj: nat, max: Option<real>)
    requires Reachable(w) && obj in w.objs
    ensures Hands(w.objs[obj].core, Answered(w.objs[obj], max))
    ensures Amounts(w.objs[obj].core, max, Answered(w.objs[obj], max))
    ensures w.objs[obj].core.isRead && w.objs[obj].core.hasDone ==> w.objs[obj].core.bytes <= |w.objs[obj].core.data|
  {
    ReachableInv(w);
    AnsweredOk(w.objs[obj], max);
  }

  /** When the handler of `read` or `receive_from` runs, the put area is still as
      large as the launch prepared it, so its commit appends every byte. */
  lemma CommitIsWhole(w: World, t: Token, bytes: nat, payload: seq<byte>, ec: Ec)
    requires Reachable(w) && Enabled(w, Advance(t, Handle(bytes, payload, ec))) && Commits(w.ops[t].kind)
    ensures var o, o' := w.objs[w.ops[t].obj], Next(w, Advance(t, Handle(bytes, payload, ec))).objs[w.ops[t].obj];
            && bytes <= o.core.room
            && o'.core.data == o.core.data + payload
            && o'.core.bytes == bytes == |payload|
  {
    ReachableInv(w);
    var op := w.ops[t];
    assert OpAt(w, t);
    assert payload[..bytes] == payload;
  }

  /** A read is launched on a buffer that still holds nothing. */
  lemma LaunchesOnEmpty(w: World, t: Token)
    requires Reachable(w) && t in w.ops && w.ops[t].phase.Launching? && Commits(w.ops[t].kind)
    ensures w.ops[t].obj in w.objs && w.objs[w.ops[t].obj].core.data == [] && !w.objs[w.ops[t].obj].core.hasDone
  {
    ReachableInv(w);
    assert OpAt(w, t);
  }

  /** The fields and the buffer do what the machine says: the launch of a read prepares
      the put area with `Prepare`, */
  method LaunchOnBuffer(state: StateObject, op: Op, o: Obj) returns (ok: bool)
    requires state.Valid() && !state.hasDone && state.View() == o.core
    requires op.phase.Launching? && Commits(op.kind) && o.core.data == []
    modifies state, state.buffer, state.buffer.buffer
    ensures state.Valid()
    ensures ok <==> op.kind.n <= state.buffer.maxSize
    ensures var launch := Launch(ok, state.View().room);
            CanDo(op, o, launch) && state.View() == Do(op, o, launch).obj.core
  {
    ok := state.LaunchRead(op.kind.n);
    LaunchMatches(op, o, ok, state.View());
  }

  lemma LaunchMatches(op: Op, o: Obj, ok: bool, s: State)
    requires op.phase.Launching? && Commits(op.kind) && s == o.core.(room := s.room) && (ok ==> s.room >= op.kind.n)
    ensures CanDo(op, o, Launch(ok, s.room)) && Do(op, o, Launch(ok, s.room)).obj.core == s
  {
  }

  /** and the handler stores the bytes with `Fill` and `Commit`. */
  method HandleOnBuffer(state: StateObject, op: Op, o: Obj, payload: seq<byte>, ec: Ec)
    requires state.Valid() && !state.hasDone && state.View() == o.core
    requires op.phase.Pending? && Commits(op.kind) && |payload| <= op.kind.n <= o.core.room
    modifies state, state.buffer, state.buffer.buffer
    ensures state.Valid()
    ensures var handle := Handle(|payload|, payload, ec);
            && CanDo(op, o, handle)
            && var l := Do(op, o, handle);
               CanDo(l.op, l.obj, StoreEc) && state.View() == Do(l.op, l.obj, StoreEc).obj.core
  {
    HandleMatches(op, o, payload, ec);
    state.StoreRead(payload, ec);
  }

  lemma HandleMatches(op: Op, o: Obj, payload: seq<byte>, ec: Ec)
    requires op.phase.Pending? && Commits(op.kind) && |payload| <= op.kind.n <= o.core.room
    ensures var handle := Handle(|payload|, payload, ec);
            && CanDo(op, o, handle)
            && var l := Do(op, o, handle);
               && CanDo(l.op, l.obj, StoreEc)
               && Do(l.op, l.obj, StoreEc).obj.core
                    == o.core.(data := o.core.data + payload, room := o.core.room - |payload|, bytes := |payload|, ec := ec)
  {
    assert payload[..|payload|] == payload;
  }

  // --- Publication ----------------------------------------------------------------------------

  /** `has_done` is set only after the reservation has been given back. */
  lemma DoneMeansReleased(w: World, t: Token)
    requires Reachable(w) && t in w.ops && w.ops[t].obj in w.objs
    requires w.objs[w.ops[t].obj].core.hasDone && !Fresh(w.ops[t])
    ensures w.ops[t].phase == Completed || w.ops[t].phase == Threw
    ensures G.PointOf(GateOf(w, w.ops[t].sock), t) == G.Idle
  {
    ReachableInv(w);
    var op := w.ops[t];
    assert OpAt(w, t);
  }

  /** Published results are final: only a getter on this object, or the next
      `read_until` on it, changes it. */
  lemma ResultIsFinal(w: World, a: Action, obj: nat)
    requires Inv(w) && Enabled(w, a) && obj in w.objs && w.objs[obj].core.hasDone
    requires !(a.Get? && a.obj == obj)
    requires !(a.Advance? && a.stage.Set? && w.ops[a.t].obj == obj)
    ensures obj in Next(w, a).objs && Next(w, a).objs[obj] == w.objs[obj]
  {
    if a.Advance? {
      assert OpAt(w, a.t);
      if w.ops[a.t].obj == obj {
        OnlySetOnDone(w.ops[a.t], w.objs[obj], a.stage);
      }
    }
  }

  /** The only stage that meets a published object is that of the next `read_until`. */
  lemma OnlySetOnDone(op: Op, o: Obj, stage: Stage)
    requires ObjectKnown(op, o) && CanDo(op, o, stage) && o.core.hasDone
    ensures stage.Set?
  {
  }

  /** No getter is called on the object during the run, and no `read_until` sets its
      fields. */
  predicate Spares(w: World, es: seq<Action>, obj: nat)
    requires IsRun(w, es)
    decreases es
  {
    es != [] ==>
      && !(es[0].Get? && es[0].obj == obj)
      && !(es[0].Advance? && es[0].stage.Set? && w.ops[es[0].t].obj == obj)
      && Spares(Next(w, es[0]), es[1..], obj)
  }

  /** The same over whole runs, whatever happens to other objects. */
  lemma {:induction false} ResultStays(w: World, es: seq<Action>, obj: nat)
    requires Inv(w) && IsRun(w, es) && obj in w.objs && w.objs[obj].core.hasDone
    requires Spares(w, es, obj)
    ensures obj in After(w, es).objs && After(w, es).objs[obj] == w.objs[obj]
    decreases es
  {
    if es != [] {
      StepKeepsInv(w, es[0]);
      ResultIsFinal(w, es[0], obj);
      ResultStays(Next(w, es[0]), es[1..], obj);
    }
  }

  // --- Reservations ------------------------------------------------------------------------------

  /** Every begin that succeeded is matched by exactly one end, in the handler or in
      the catch block and never in both. */
  lemma EndsMatchBegins(w: World, t: Token)
    requires Reachable(w) && t in w.ops
    ensures var op := w.ops[t];
            && op.handlerEnds + op.catchEnds <= op.begins <= 1
            && (op.phase == Completed ==> op.begins == 1 && op.handlerEnds == 1 && op.catchEnds == 0)
            && (op.phase == Threw ==> op.handlerEnds == 0 && op.catchEnds == op.begins)
            && (op.begins > op.handlerEnds + op.catchEnds <==> Held(op.kind, G.PointOf(GateOf(w, op.sock), t)))
  {
    ReachableInv(w);
    var op := w.ops[t];
    assert OpAt(w, t);
  }

  // --- The catch block of read_until ---------------------------------------------------------------

  /** What `read_until` found, as long as it may still throw. */
  ghost predicate Remembers(w: World, t: Token, found: State) {
    && t in w.ops && w.ops[t].obj in w.objs && w.ops[t].kind == ReadUntil
    && (if Fresh(w.ops[t]) then w.objs[w.ops[t].obj].core == found
        else w.ops[t].phase == Threw || w.ops[t].saved == found)
  }

  lemma RemembersStep(w: World, a: Action, t: Token, found: State)
    requires Inv(w) && Enabled(w, a) && Remembers(w, t, found)
    ensures Remembers(Next(w, a), t, found)
  {
    if a.Access? {
      RemembersAccess(w, a.t, t, found);
    } else if a.Advance? {
      RemembersStage(w, a.t, a.stage, t, found);
    } else {
      var op := w.ops[t];
      assert OpAt(w, t);
    }
  }

  lemma RemembersAccess(w: World, u: Token, t: Token, found: State)
    requires Inv(w) && Enabled(w, Access(u)) && Remembers(w, t, found)
    ensures Remembers(Next(w, Access(u)), t, found)
  {
    if u == t {
      AccessRemembers(w.ops[t], G.PointOf(Next(w, Access(t)).gates[w.ops[t].sock], t));
    }
  }

  lemma AccessRemembers(op: Op, q: G.Point)
    ensures var op' := AfterAccess(op, q);
            op'.saved == op.saved && op'.obj == op.obj && op'.kind == op.kind
            && (Fresh(op') ==> Fresh(op)) && (Fresh(op) && !Fresh(op') ==> op'.phase == Threw)
  {
  }

  lemma RemembersStage(w: World, u: Token, stage: Stage, t: Token, found: State)
    requires Inv(w) && Enabled(w, Advance(u, stage)) && Remembers(w, t, found)
    ensures Remembers(Next(w, Advance(u, stage)), t, found)
  {
    var op, other := w.ops[t], w.ops[u];
    assert OpAt(w, t);
    assert OpAt(w, u);
    if u == t {
      StageRemembers(op, w.objs[op.obj], stage, found);
    } else if other.obj == op.obj && Fresh(op) {
      NotBoth(w, u, t);
    }
  }

  lemma StageRemembers(op: Op, o: Obj, stage: Stage, found: State)
    requires CanDo(op, o, stage) && op.kind == ReadUntil && op.phase != Threw
    requires if Fresh(op) then o.core == found else op.saved == found
    ensures var op' := Do(op, o, stage).op;
            op'.obj == op.obj && op'.kind == op.kind && !Fresh(op') && (op'.phase == Threw || op'.saved == found)
  {
  }

  lemma {:induction false} RemembersRun(w: World, es: seq<Action>, t: Token, found: State)
    requires Inv(w) && IsRun(w, es) && Remembers(w, t, found)
    ensures Inv(After(w, es)) && Remembers(After(w, es), t, found)
    decreases es
  {
    if es != [] {
      RemembersStep(w, es[0], t, found);
      StepKeepsInv(w, es[0]);
      RemembersRun(Next(w, es[0]), es[1..], t, found);
    }
  }

  /** A `read_until` that throws leaves the state object as it found it, apart from
      the length of the put area: until the reservation is granted because it has
      touched nothing, and neither does the access at which a refused begin throws;
      afterwards because the catch block restores every field.  Meanwhile anything
      may have happened on other objects. */
  lemma ThrowingReadUntilRestores(w: World, es: seq<Action>, t: Token)
    requires Reachable(w) && t in w.ops && w.ops[t].obj in w.objs && Fresh(w.ops[t]) && IsRun(w, es)
    ensures var found, v := w.objs[w.ops[t].obj].core, After(w, es);
            && t in v.ops && v.ops[t].obj in v.objs
            && (Fresh(v.ops[t]) ==> v.objs[v.ops[t].obj].core == found)
            && (Fresh(v.ops[t]) && Enabled(v, Access(t)) ==> Next(v, Access(t)).objs[v.ops[t].obj].core == found)
            && (v.ops[t].phase == Restoring ==>
                  Enabled(v, Advance(t, Restore))
                  && var s := Next(v, Advance(t, Restore)).objs[v.ops[t].obj].core; s == found.(room := s.room))
  {
    ReachableInv(w);
    var found := w.objs[w.ops[t].obj].core;
    RemembersRun(w, es, t, found);
    var v := After(w, es);
    var op := v.ops[t];
    assert OpAt(v, t);
  }
}
