/** The state object of an asynchronous operation and its getters. */
module AsyncState {
  import opened Wrappers
  import opened Streambuf

  /** The error codes that the getters tell apart. */
  datatype Ec = NoError | Eof | ConnectionReset | OtherError

  /** The fields of `state_type`.  `data` is the input sequence of its stream
      buffer and `room` the length of the put area. */
  datatype State = State(init: bool, isUdp: bool, isRead: bool, hasDone: bool, bytes: nat, ec: Ec,
                         data: seq<byte>, room: nat)

  /** What a getter gives: an exception, null, or a string.  `PastEnd` stands for
      reading beyond the data, which C++ does not check. */
  datatype Answer = BadSize | NotReadSession | Null | Text(bytes: seq<byte>) | PastEnd

  /** `NETWORK_MAX_IO_BUFFER_SIZE`, 64 MiB by default. */
  const MAX_IO_BUFFER_SIZE: nat := 67108864

  /** `checked_io_buffer_size`.  A fraction below one is accepted and truncates to
      zero. */
  function CheckedSize(size: real): (r: Option<nat>)
    ensures r.Some? <==> 0.0 < size <= MAX_IO_BUFFER_SIZE as real
    ensures r.Some? ==> r.value as real <= size < r.value as real + 1.0
  {
    if size <= 0.0 || size > MAX_IO_BUFFER_SIZE as real then None else Some(size.Floor)
  }

  datatype Got = Got(answer: Answer, state: State)

  function GetResult(s: State): Got {
    if !s.isRead then Got(NotReadSession, s)
    else if !s.hasDone then Got(Null, s)
    else if s.bytes == 0 then Got(Text([]), s)
    else if s.bytes > |s.data| then Got(PastEnd, s)
    else Got(Text(s.data[..s.bytes]), s.(data := s.data[s.bytes..], bytes := 0))
  }

  function GetBuffer(s: State, max: real): Got {
    match CheckedSize(max)
    case None => Got(BadSize, s)
    case Some(limit) => TakeUpTo(s, limit)
  }

  /** `get_buffer` after its check of the size. */
  function TakeUpTo(s: State, limit: nat): Got {
    if !s.isRead then Got(NotReadSession, s)
    else if !s.hasDone then Got(Null, s)
    else if s.data == [] then Got(Text([]), s)
    else
      var n := Min(limit, |s.data|);
      Got(Text(s.data[..n]), s.(data := s.data[n..], bytes := if s.bytes > n then s.bytes - n else 0))
  }

  /** How much a getter could take. */
  function Available(s: State): nat {
    if s.isRead && s.hasDone then |s.data| else 0
  }

  /** A published result lies within the data. */
  predicate Readable(s: State) {
    s.isRead && s.hasDone ==> s.bytes <= |s.data|
  }

  function Delivered(a: Answer): seq<byte> {
    if a.Text? then a.bytes else []
  }

  /** A getter hands out a prefix of the data and keeps the rest, never reads past
      the end, leaves a readable state, and does nothing to a state that is not
      a finished read session. */
  ghost predicate Hands(s: State, g: Got) {
    && g.answer != PastEnd
    && Delivered(g.answer) + g.state.data == s.data
    && Readable(g.state)
    && (!s.isRead || !s.hasDone ==> g.state == s && !g.answer.Text?)
    && g.state == s.(data := g.state.data, bytes := g.state.bytes)
  }

  predicate Finished(s: State) { s.isRead && s.hasDone }

  /** How much a getter hands out: the result as a whole, or as much of the buffer as
      fits the limit; what is left of the result; and the answers that hand out
      nothing. */
  ghost predicate Amounts(s: State, max: Option<real>, g: Got) {
    if max.Some? && CheckedSize(max.value) == None then g == Got(BadSize, s)
    else if !Finished(s) then g == Got(if s.isRead then Null else NotReadSession, s)
    else
      var n := if max == None then s.bytes else Min(CheckedSize(max.value).value, Available(s));
      && g.answer.Text? && |g.answer.bytes| == n
      && g.state.bytes == Max(s.bytes - n, 0)
      && Available(g.state) == Available(s) - n
  }

  lemma ResultHandsOut(s: State)
    requires Readable(s)
    ensures Hands(s, GetResult(s)) && Amounts(s, None, GetResult(s))
  {
  }

  lemma BufferHandsOut(s: State, max: real)
    requires Readable(s)
    ensures Hands(s, GetBuffer(s, max)) && Amounts(s, Some(max), GetBuffer(s, max))
  {
  }

  /** The two predicates leave a getter no choice. */
  lemma GettersDetermined(s: State, max: Option<real>, g: Got, h: Got)
    requires Hands(s, g) && Amounts(s, max, g)
    requires Hands(s, h) && Amounts(s, max, h)
    ensures g == h
  {
    if g.answer.Text? && h.answer.Text? {
      var n := |g.answer.bytes|;
      assert g.answer.bytes == s.data[..n] == h.answer.bytes;
      assert g.state.data == s.data[n..] == h.state.data;
    }
  }

  /** Taking the result in pieces: a piece that asks for no more than the result is
      a prefix of what `get_result` would have given, and `get_result` then gives
      the rest. */
  lemma PiecesOfResult(s: State, max: real)
    requires Readable(s) && s.isRead && s.hasDone
    requires CheckedSize(max).Some? && CheckedSize(max).value <= s.bytes
    ensures var piece := GetBuffer(s, max);
            Delivered(piece.answer) + Delivered(GetResult(piece.state).answer) == Delivered(GetResult(s).answer)
            && GetResult(piece.state).state.data == GetResult(s).state.data
  {
    PieceOfResult(s, CheckedSize(max).value);
  }

  lemma PieceOfResult(s: State, n: nat)
    requires Readable(s) && s.isRead && s.hasDone && n <= s.bytes
    ensures var piece := TakeUpTo(s, n);
            Delivered(piece.answer) + Delivered(GetResult(piece.state).answer) == Delivered(GetResult(s).answer)
            && GetResult(piece.state).state.data == GetResult(s).state.data
  {
    SplitTwice(s.data, n, s.bytes);
  }

  lemma SplitTwice(d: seq<byte>, n: nat, m: nat)
    requires n <= m <= |d|
    ensures d[..n] + d[n..][..m - n] == d[..m]
    ensures d[n..][m - n..] == d[m..]
  {
  }

  /** The class behind the value. */
  class StateObject {
    var init: bool
    var isUdp: bool
    var isRead: bool
    var hasDone: bool
    var bytesTransferred: nat
    var ec: Ec
    const buffer: Buffer

    ghost predicate Valid()
      reads this, buffer, buffer.buffer
    {
      buffer.Valid() && Readable(View())
    }

    function View(): State
      reads this, buffer, buffer.buffer
      requires buffer.Valid()
    {
      State(init, isUdp, isRead, hasDone, bytesTransferred, ec, buffer.Contents(), |buffer.PutArea()|)
    }

    constructor (maxSize: nat)
      ensures Valid() && fresh(buffer) && fresh(buffer.buffer)
      ensures View() == State(false, false, false, false, 0, NoError, [], Min(maxSize, DELTA))
    {
      init, isUdp, isRead, hasDone, bytesTransferred, ec := false, false, false, false, 0, NoError;
      buffer := new Buffer(maxSize);
    }

    method TakeResult() returns (a: Answer)
      requires Valid()
      modifies this, buffer
      ensures Valid() && buffer.buffer == old(buffer.buffer)
      ensures Got(a, View()) == GetResult(old(View()))
    {
      ResultHandsOut(View());
      if !isRead {
        return NotReadSession;
      }
      if !hasDone {
        return Null;
      }
      if bytesTransferred == 0 {
        return Text([]);
      }
      var data := TakeFront(bytesTransferred);
      bytesTransferred := 0;
      a := Text(data);
    }

    method TakeBuffer(max: real) returns (a: Answer)
      requires Valid()
      modifies this, buffer
      ensures Valid() && buffer.buffer == old(buffer.buffer)
      ensures Got(a, View()) == GetBuffer(old(View()), max)
    {
      BufferHandsOut(View(), max);
      var checked := CheckedSize(max);
      if checked == None {
        return BadSize;
      }
      if !isRead {
        return NotReadSession;
      }
      if !hasDone {
        return Null;
      }
      var size := buffer.Size();
      if size == 0 {
        return Text([]);
      }
      var n := Min(checked.value, size);
      var data := TakeFront(n);
      bytesTransferred := if bytesTransferred > n then bytesTransferred - n else 0;
      a := Text(data);
    }

    /** Copies the first `n` bytes of the input sequence and consumes them. */
    method TakeFront(n: nat) returns (bytes: seq<byte>)
      requires buffer.Valid() && n <= |buffer.Contents()|
      modifies buffer
      ensures buffer.Valid() && buffer.buffer == old(buffer.buffer)
      ensures bytes == old(buffer.Contents())[..n] && buffer.Contents() == old(buffer.Contents())[n..]
      ensures buffer.PutArea() == old(buffer.PutArea())
    {
      bytes := buffer.buffer[buffer.g..buffer.g + n];
      assert bytes == buffer.Contents()[..n];
      buffer.Consume(n);
    }

    method CountAvailable() returns (n: nat)
      requires Valid()
      ensures n == Available(View())
      ensures n == if isRead && hasDone then |buffer.Contents()| else 0
    {
      n := 0;
      if isRead && hasDone {
        n := buffer.Size();
      }
    }

    /** What the launch of `read` and `receive_from` does with the buffer; it fails
        when `prepare` throws. */
    method LaunchRead(n: nat) returns (ok: bool)
      requires Valid() && !hasDone
      modifies this, buffer, buffer.buffer
      ensures Valid() && (buffer.buffer == old(buffer.buffer) || fresh(buffer.buffer))
      ensures ok <==> |old(View()).data| + n <= buffer.maxSize
      ensures ok ==> View() == old(View()).(room := View().room) && View().room >= n
      ensures !ok && old(View()).data == [] ==> View() == old(View())
    {
      ok := buffer.Prepare(n);
    }

    /** The first part of the handler of `read` and `receive_from`: the bytes are in
        the put area that the launch prepared. */
    method StoreRead(payload: seq<byte>, error: Ec)
      requires Valid() && !hasDone && |payload| <= View().room
      modifies this, buffer, buffer.buffer
      ensures Valid() && buffer.buffer == old(buffer.buffer)
      ensures View() == old(View()).(data := old(View()).data + payload, room := old(View()).room - |payload|,
                                     bytes := |payload|, ec := error)
    {
      buffer.Fill(payload);
      assert buffer.PutArea()[..|payload|] == payload;
      buffer.Commit(|payload|);
      bytesTransferred := |payload|;
      ec := error;
    }

    /** The last access of every handler. */
    method Publish()
      requires Valid() && (isRead ==> bytesTransferred <= |View().data|)
      modifies this
      ensures Valid() && View() == old(View()).(hasDone := true)
    {
      hasDone := true;
    }
  }
}
