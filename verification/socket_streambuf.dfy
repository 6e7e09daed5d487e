/** `basic_socket_streambuf`: characters on their way to and from a socket.

    The put area is a prefix of an array of 512 bytes, or absent when the buffer is
    unbuffered.  `overflow` sends the put area with as many partial sends as it
    takes.  The get area is refilled, past eight bytes of putback space, when it is
    used up.

    How the system calls will go is part of the state: `sendPlan` and `receivePlan`
    list the outcomes of the coming attempts.  Behind its plan a socket accepts
    everything and has nothing more to receive.
 */
module SocketStreambuf {
  import opened Wrappers
  import opened Streambuf

  datatype Error = NoError | TimedOut | EndOfFile | SystemError

  /** One turn of the send loop. */
  datatype SendOutcome =
    | Expired                // past the expiry time
    | Accepts(n: nat)        // the system takes this many bytes; none is a failure without an error
    | Blocks(ready: bool)    // would block; waiting then succeeds or fails
    | Breaks

  /** One turn of the receive loop. */
  datatype ReceiveOutcome =
    | ReceiveExpired
    | Gives(bytes: seq<byte>)    // what has arrived; none is the end of the file
    | Closed
    | ReceiveBlocks(ready: bool)
    | ReceiveBreaks

  const BUFFER_SIZE: nat := 512
  const PUTBACK_MAX: nat := 8

  /** No send error and no expiry lies ahead. */
  predicate Benign(plan: seq<SendOutcome>) {
    forall i | 0 <= i < |plan| :: (plan[i].Accepts? && plan[i].n > 0) || plan[i] == Blocks(true)
  }

  /** What becomes of sending a block: how many of its bytes go, the plan for later
      attempts, and the error code that the last system call leaves. */
  datatype Sending = Sending(gone: nat, rest: seq<SendOutcome>, ec: Error)

  /** Sending a block of `n` bytes. */
  function Send(plan: seq<SendOutcome>, n: nat): (r: Sending)
    ensures r.gone <= n
    ensures r.gone == n ==> r.ec == NoError
    decreases plan
  {
    if n == 0 then Sending(0, plan, NoError)
    else if plan == [] then Sending(n, [], NoError)
    else
      match plan[0]
      case Expired => Sending(0, plan[1..], TimedOut)
      case Breaks => Sending(0, plan[1..], SystemError)
      case Blocks(ready) => if ready then Send(plan[1..], n) else Sending(0, plan[1..], SystemError)
      case Accepts(m) =>
        var k := Min(m, n);
        if k == 0 then Sending(0, plan[1..], NoError)
        else
          var later := Send(plan[1..], n - k);
          later.(gone := k + later.gone)
  }

  /** How many bytes the system offers to take before the first failure. */
  function Offered(plan: seq<SendOutcome>): nat {
    if plan == [] then 0 else (if plan[0].Accepts? then plan[0].n else 0) + Offered(plan[1..])
  }

  /** The error code after a failure.  A send that takes nothing leaves none. */
  function Cause(failure: SendOutcome): Error {
    match failure case Expired => TimedOut case Accepts(_) => NoError case _ => SystemError
  }

  /** A failure stops a block exactly when the system has not offered to take all of it
      before; what has gone, what is left of the plan and the error code follow. */
  lemma {:induction false} SendStops(before: seq<SendOutcome>, failure: SendOutcome, rest: seq<SendOutcome>, n: nat)
    requires Benign(before) && !Benign([failure])
    ensures var r := Send(before + [failure] + rest, n);
            if Offered(before) < n then r == Sending(Offered(before), rest, Cause(failure)) else r.gone == n
    decreases before
  {
    var plan := before + [failure] + rest;
    if before == [] {
      assert plan[0] == failure && plan[1..] == rest;
      assert [failure][0] == failure;
    } else if n > 0 {
      assert plan[0] == before[0] && plan[1..] == before[1..] + [failure] + rest;
      var m := if before[0].Accepts? then n - Min(before[0].n, n) else n;
      if m > 0 || !before[0].Accepts? {
        SendStops(before[1..], failure, rest, m);
      }
    }
  }

  /** Partial sends alone never stop a block. */
  lemma {:induction false} BenignSends(plan: seq<SendOutcome>, n: nat)
    requires Benign(plan)
    ensures Send(plan, n).gone == n && Benign(Send(plan, n).rest)
    decreases plan
  {
    if n > 0 && plan != [] {
      BenignSends(plan[1..], if plan[0].Accepts? then n - Min(plan[0].n, n) else n);
    }
  }

  /** What a receive loop brings, and the plan that it leaves. */
  datatype Receipt = Receipt(bytes: seq<byte>, rest: seq<ReceiveOutcome>)

  /** The next block that has arrived, as far as it fits; the system keeps the rest of
      it.  Nothing when an error, the expiry or the end of the file comes first. */
  function Arrive(plan: seq<ReceiveOutcome>): (r: Receipt)
    ensures |r.bytes| <= BUFFER_SIZE - PUTBACK_MAX
    decreases plan
  {
    if plan == [] then Receipt([], [])
    else
      match plan[0]
      case Gives(bytes) =>
        var n := Min(|bytes|, BUFFER_SIZE - PUTBACK_MAX);
        Receipt(bytes[..n], Kept(bytes[n..], plan[1..]))
      case ReceiveBlocks(ready) => if ready then Arrive(plan[1..]) else Receipt([], plan[1..])
      case _ => Receipt([], plan[1..])
  }

  lemma {:induction false} ArriveConserves(plan: seq<ReceiveOutcome>)
    ensures Arrive(plan).bytes + Given(Arrive(plan).rest) == Given(plan)
    decreases plan
  {
    if plan != [] && plan[0].Gives? {
      var bytes := plan[0].bytes;
      KeptConserves(bytes, Min(|bytes|, BUFFER_SIZE - PUTBACK_MAX), plan[1..]);
    } else if plan != [] && plan[0] == ReceiveBlocks(true) {
      ArriveConserves(plan[1..]);
    }
  }

  lemma KeptConserves(bytes: seq<byte>, n: nat, plan: seq<ReceiveOutcome>)
    requires n <= |bytes|
    ensures bytes[..n] + Given(Kept(bytes[n..], plan)) == bytes + Given(plan)
  {
    assert bytes == bytes[..n] + bytes[n..];
    Joined(bytes[..n], bytes[n..], Given(plan));
  }

  /** The plan when the system still holds some bytes. */
  function Kept(bytes: seq<byte>, plan: seq<ReceiveOutcome>): (r: seq<ReceiveOutcome>)
    ensures Given(r) == bytes + Given(plan)
  {
    if bytes == [] then plan
    else
      assert ([Gives(bytes)] + plan)[1..] == plan;
      [Gives(bytes)] + plan
  }

  /** Everything that the peer sends according to the plan. */
  function Given(plan: seq<ReceiveOutcome>): seq<byte> {
    if plan == [] then [] else (if plan[0].Gives? then plan[0].bytes else []) + Given(plan[1..])
  }

  /** After any number of waits, a block that fits is received whole, and the plan
      behind it is left. */
  lemma {:induction false} ReceivesBlock(waits: seq<ReceiveOutcome>, block: seq<byte>, rest: seq<ReceiveOutcome>)
    requires forall i | 0 <= i < |waits| :: waits[i] == ReceiveBlocks(true)
    requires 0 < |block| <= 504
    ensures Arrive(waits + [Gives(block)] + rest) == Receipt(block, rest)
    decreases waits
  {
    var plan := waits + [Gives(block)] + rest;
    if waits == [] {
      assert plan[0] == Gives(block) && plan[1..] == rest;
      assert block[..|block|] == block && block[|block|..] == [];
    } else {
      assert plan[0] == waits[0] && plan[1..] == waits[1..] + [Gives(block)] + rest;
      ReceivesBlock(waits[1..], block, rest);
    }
  }

  /** Sending a block again of which `k` bytes have already gone. */
  lemma Repeated(sent: seq<byte>, output: seq<byte>, k: nat)
    requires k <= |output|
    ensures (sent + output[..k]) + output == sent + output <==> k == 0
  {
  }

  /** A send loop over `output` gave up when `k` bytes had gone. */
  predicate GaveUp(before: seq<byte>, after: seq<byte>, output: seq<byte>, k: nat) {
    && (k < |output| || (k == 0 && output == []))
    && after == before + output[..k]
  }

  class Buffer {
    var putBuffer: array<byte>
    var pptr: nat
    const getBuffer: array<byte>
    var gptr: nat
    var egptr: nat
    var ec: Error

    // the socket
    var sendPlan: seq<SendOutcome>
    var receivePlan: seq<ReceiveOutcome>
    var sent: seq<byte>
    var received: seq<byte>
    var taken: seq<byte>    // what the reader has got so far

    ghost predicate Valid()
      reads this, putBuffer, getBuffer
    {
      && (putBuffer.Length == BUFFER_SIZE || putBuffer.Length == 0)
      && pptr <= putBuffer.Length
      && getBuffer.Length == BUFFER_SIZE && getBuffer != putBuffer
      && PUTBACK_MAX <= gptr <= egptr <= BUFFER_SIZE
      && taken + getBuffer[gptr..egptr] == received
    }

    predicate Buffered()
      reads this, putBuffer
    {
      putBuffer.Length > 0
    }

    /** The put area up to the put pointer: accepted from the writer, not yet sent. */
    function Pending(): seq<byte>
      reads this, putBuffer
      requires pptr <= putBuffer.Length
    {
      putBuffer[..pptr]
    }

    /** What `overflow` sends: the put area, or the byte itself when unbuffered. */
    function Due(c: Option<byte>): seq<byte>
      reads this, putBuffer
      requires pptr <= putBuffer.Length
    {
      if Buffered() then Pending() else if c.Some? then [c.value] else []
    }

    /** Everything that the writer has handed over. */
    function Written(): seq<byte>
      reads this, putBuffer
      requires pptr <= putBuffer.Length
    {
      sent + Pending()
    }

    constructor (sends: seq<SendOutcome>, receives: seq<ReceiveOutcome>)
      ensures Valid() && fresh(putBuffer) && fresh(getBuffer)
      ensures Buffered() && Pending() == [] && sent == [] && received == [] && taken == []
      ensures pptr == 0 && sendPlan == sends && receivePlan == receives && ec == NoError
    {
      putBuffer := new byte[BUFFER_SIZE];
      getBuffer := new byte[BUFFER_SIZE];
      pptr, gptr, egptr, ec := 0, PUTBACK_MAX, PUTBACK_MAX, NoError;
      sendPlan, receivePlan, sent, received, taken := sends, receives, [], [], [];
    }

    /** The outcome of sending a block: what the plan says, and nothing else. */
    ghost predicate Tried(output: seq<byte>, plan: seq<SendOutcome>, before: Error, ok: bool, k: nat)
      reads this
    {
      && k == Send(plan, |output|).gone && sendPlan == Send(plan, |output|).rest
      && (ok <==> k == |output|)
      && ec == if output == [] then before else Send(plan, |output|).ec
    }

    // --- Writing ----------------------------------------------------------------------

    /** The send loop of `overflow`.  `k` bytes have gone when it ends.  A send that
        succeeds clears the error code. */
    method SendAll(output: seq<byte>) returns (ok: bool, ghost k: nat)
      requires Valid()
      modifies this`sendPlan, this`sent, this`ec
      ensures Valid()
      ensures Tried(output, old(sendPlan), old(ec), ok, k)
      ensures sent == old(sent) + output[..k]
    {
      var rest := output;
      k := 0;
      while rest != []
        invariant Valid()
        invariant k <= |output| && rest == output[k..] && sent == old(sent) + output[..k]
        invariant Send(old(sendPlan), |output|) == Send(sendPlan, |rest|).(gone := k + Send(sendPlan, |rest|).gone)
        invariant if output == [] then ec == old(ec) else rest == [] ==> ec == NoError
        decreases |sendPlan|, |rest|
      {
        var m, more := SendSome(rest);
        if !more {
          return false, k;
        }
        assert output[..k] + rest[..m] == output[..k + m];
        rest := rest[m..];
        k := k + m;
      }
      ok := true;
    }

    /** One turn of the loop: `m` bytes have gone, perhaps none, and there may be
        `more` turns. */
    method SendSome(output: seq<byte>) returns (m: nat, more: bool)
      requires Valid() && output != []
      modifies this`sendPlan, this`sent, this`ec
      ensures Valid() && m <= |output| && sent == old(sent) + output[..m]
      ensures var later := Send(sendPlan, |output| - m);
              Send(old(sendPlan), |output|) == if more then later.(gone := m + later.gone) else Sending(0, sendPlan, ec)
      ensures more ==> ec == NoError && (|sendPlan| < |old(sendPlan)| || (sendPlan == old(sendPlan) && m > 0))
      ensures !more ==> m == 0
    {
      var outcome := if sendPlan == [] then Accepts(|output|) else sendPlan[0];
      sendPlan := if sendPlan == [] then [] else sendPlan[1..];
      m := 0;
      match outcome {
        case Expired =>
          ec, more := TimedOut, false;
        case Accepts(n) =>
          m := Min(n, |output|);
          sent := sent + output[..m];
          ec, more := NoError, m > 0;
        case Blocks(ready) =>
          ec, more := if ready then NoError else SystemError, ready;
        case Breaks =>
          ec, more := SystemError, false;
      }
    }

    /** With a byte: makes room and stores it, or sends it when unbuffered.  Without:
        flushes.  On success everything handed over so far is accounted for.  On
        failure nothing is dropped, but the part of the put area that has gone
        stays in it. */
    method Overflow(c: Option<byte>) returns (ok: bool, ghost k: nat)
      requires Valid()
      modifies this`pptr, this`sendPlan, this`sent, this`ec, putBuffer
      ensures Valid() && Buffered() == old(Buffered())
      ensures ok ==> Written() == old(Written()) + (if c.Some? then [c.value] else [])
      ensures ok ==> Pending() == if c.Some? && Buffered() then [c.value] else []
      ensures !ok ==> Pending() == old(Pending()) && GaveUp(old(sent), sent, old(Pending()), k)
      ensures Tried(old(Due(c)), old(sendPlan), old(ec), ok, k)
    {
      var output: seq<byte>;
      k := 0;
      if putBuffer.Length == 0 {
        if c == None {
          return true, 0;
        }
        output := [c.value];
      } else {
        output := putBuffer[..pptr];
      }
      ghost var before := Written();
      ok, k := SendAll(output);
      if !ok {
        return;
      }
      assert output[..k] == output;
      if putBuffer.Length > 0 {
        pptr := 0;
        if c == None {
          return;
        }
        putBuffer[0] := c.value;
        pptr := 1;
        assert Pending() == [c.value];
      }
    }

    /** `sputc` */
    method Put(b: byte) returns (ok: bool, ghost k: nat)
      requires Valid()
      modifies this`pptr, this`sendPlan, this`sent, this`ec, putBuffer
      ensures Valid() && Buffered() == old(Buffered())
      ensures ok ==> Written() == old(Written()) + [b]
      ensures !ok ==> Pending() == old(Pending()) && GaveUp(old(sent), sent, old(Pending()), k)
      ensures if old(pptr) < putBuffer.Length
              then ok && Pending() == old(Pending()) + [b] && unchanged(this`sendPlan, this`sent, this`ec)
              else Tried(old(Due(Some(b))), old(sendPlan), old(ec), ok, k)
    {
      if pptr < putBuffer.Length {
        ghost var before := Pending();
        putBuffer[pptr] := b;
        pptr := pptr + 1;
        assert Pending() == before + [b];
        return true, 0;
      }
      ok, k := Overflow(Some(b));
    }

    method Sync() returns (ok: bool, ghost k: nat)
      requires Valid()
      modifies this`pptr, this`sendPlan, this`sent, this`ec, putBuffer
      ensures Valid() && Buffered() == old(Buffered())
      ensures ok ==> sent == old(Written()) && Pending() == []
      ensures !ok ==> Pending() == old(Pending()) && GaveUp(old(sent), sent, old(Pending()), k)
      ensures Tried(old(Pending()), old(sendPlan), old(ec), ok, k)
    {
      ok, k := Overflow(None);
      assert ok ==> Written() == sent + [] == sent;
    }

    /** `setbuf(0, 0)`: turns buffering off, unless bytes are pending. */
    method Unbuffer() returns (ok: bool)
      requires Valid()
      modifies this`putBuffer, this`pptr, this`sendPlan, this`sent, this`ec, putBuffer
      ensures Valid() && Written() == old(Written())
      ensures putBuffer == old(putBuffer) || fresh(putBuffer)
      ensures ok <==> old(Pending()) == []
      ensures Buffered() <==> old(Buffered()) && !ok
      ensures unchanged(this`sendPlan, this`sent, this`ec)
    {
      ok := pptr == 0;
      if ok {
        putBuffer := new byte[0];
        pptr := 0;
        ghost var gone := sent;
        var flushed, _ := Sync();
        assert sent == gone + [] == gone;
      }
    }

    // --- Reading ----------------------------------------------------------------------

    /** Refills the get area.  As long as bytes are left in it, it reports the end of
        the file without looking. */
    method Underflow() returns (ok: bool)
      requires Valid()
      modifies this`gptr, this`egptr, this`receivePlan, this`received, this`ec, getBuffer
      ensures Valid()
      ensures ok <==> old(gptr) == old(egptr) && Arrive(old(receivePlan)).bytes != []
      ensures ok ==> gptr < egptr && getBuffer[gptr..egptr] == Arrive(old(receivePlan)).bytes
      ensures receivePlan == if old(gptr) == old(egptr) then Arrive(old(receivePlan)).rest else old(receivePlan)
      ensures received + Given(receivePlan) == old(received) + Given(old(receivePlan))
      ensures ok ==> received == old(received) + getBuffer[gptr..egptr]
      ensures !ok ==> received == old(received) && gptr == old(gptr) && egptr == old(egptr)
      ensures !ok ==> getBuffer[gptr..egptr] == old(getBuffer[gptr..egptr])
      ensures ok ==> ec == NoError
      ensures !ok ==> if gptr == egptr then ec != NoError else ec == old(ec)
    {
      if gptr != egptr {
        return false;
      }
      ArriveConserves(receivePlan);
      var bytes := ReceiveBlock();
      ok := bytes != [];
      if ok {
        Refill(bytes);
      }
    }

    /** The loop: the next block, or nothing and an error. */
    method ReceiveBlock() returns (bytes: seq<byte>)
      requires Valid()
      modifies this`receivePlan, this`ec
      ensures Valid() && Arrive(old(receivePlan)) == Receipt(bytes, receivePlan)
      ensures bytes == [] <==> ec != NoError
    {
      var more := true;
      bytes := [];
      while more
        invariant Valid()
        invariant more ==> Arrive(receivePlan) == Arrive(old(receivePlan))
        invariant !more ==> Arrive(old(receivePlan)) == Receipt(bytes, receivePlan) && (bytes == [] <==> ec != NoError)
        decreases more, |receivePlan|
      {
        bytes, more := ReceiveSome();
      }
    }

    /** One turn of the loop: a block, or nothing, and there may be `more` turns. */
    method ReceiveSome() returns (bytes: seq<byte>, more: bool)
      requires Valid()
      modifies this`receivePlan, this`ec
      ensures Valid()
      ensures more ==> bytes == [] && Arrive(receivePlan) == Arrive(old(receivePlan)) && |receivePlan| < |old(receivePlan)|
      ensures !more ==> Arrive(old(receivePlan)) == Receipt(bytes, receivePlan) && (bytes == [] <==> ec != NoError)
    {
      bytes, more := [], false;
      if receivePlan == [] {
        ec := EndOfFile;
        return;
      }
      var outcome := receivePlan[0];
      receivePlan := receivePlan[1..];
      match outcome {
        case ReceiveExpired =>
          ec := TimedOut;
        case Gives(block) =>
          var n := Min(|block|, BUFFER_SIZE - PUTBACK_MAX);
          bytes := block[..n];
          receivePlan := Kept(block[n..], receivePlan);
          ec := if n == 0 then EndOfFile else NoError;
        case Closed =>
          ec := EndOfFile;
        case ReceiveBlocks(ready) =>
          ec, more := if ready then NoError else SystemError, ready;
        case ReceiveBreaks =>
          ec := SystemError;
      }
    }

    method Refill(bytes: seq<byte>)
      requires Valid() && gptr == egptr && 0 < |bytes| <= BUFFER_SIZE - PUTBACK_MAX
      modifies this`gptr, this`egptr, this`received, getBuffer
      ensures Valid() && gptr < egptr && getBuffer[gptr..egptr] == bytes
      ensures received == old(received) + bytes
    {
      assert received == taken + getBuffer[gptr..egptr] == taken + [] == taken;
      var i := 0;
      while i < |bytes|
        invariant 0 <= i <= |bytes|
        invariant forall j | 0 <= j < i :: getBuffer[PUTBACK_MAX + j] == bytes[j]
        modifies getBuffer
      {
        getBuffer[PUTBACK_MAX + i] := bytes[i];
        i := i + 1;
      }
      gptr, egptr := PUTBACK_MAX, PUTBACK_MAX + |bytes|;
      received := received + bytes;
      assert getBuffer[gptr..egptr] == bytes;
    }

    /** `sbumpc`: the bytes come out in the order in which they were received. */
    method Bump() returns (eof: bool, b: byte)
      requires Valid()
      modifies this`gptr, this`egptr, this`receivePlan, this`received, this`taken, this`ec, getBuffer
      ensures Valid()
      ensures !eof ==> taken == old(taken) + [b] && taken <= received
      ensures eof ==> taken == old(taken) == received
      ensures eof <==> old(taken) == old(received) && Arrive(old(receivePlan)).bytes == []
      ensures receivePlan == if old(taken) == old(received) then Arrive(old(receivePlan)).rest else old(receivePlan)
      ensures received + Given(receivePlan) == old(received) + Given(old(receivePlan))
    {
      if gptr == egptr {
        var more := Underflow();
        if !more {
          return true, 0;
        }
      }
      b := getBuffer[gptr];
      ghost var rest := getBuffer[gptr..egptr];
      gptr := gptr + 1;
      taken := taken + [b];
      assert rest == [b] + getBuffer[gptr..egptr];
      eof := false;
    }
  }

  /** No receive error, expiry or end of the file lies ahead. */
  predicate Flowing(plan: seq<ReceiveOutcome>) {
    forall i | 0 <= i < |plan| :: (plan[i].Gives? && plan[i].bytes != []) || plan[i] == ReceiveBlocks(true)
  }

  lemma {:induction false} FlowingArrives(plan: seq<ReceiveOutcome>)
    ensures Flowing(plan) ==> Flowing(Arrive(plan).rest)
    ensures Flowing(plan) && Arrive(plan).bytes == [] ==> Given(plan) == [] && Given(Arrive(plan).rest) == []
    decreases plan
  {
    if Flowing(plan) && plan != [] {
      if plan[0].Gives? {
        assert plan[0].bytes[..1] != [];
      } else {
        FlowingArrives(plan[1..]);
      }
    }
  }

  /** Reading `n` characters.  What the reader has got is what the peer has sent, in
      order and without a gap; it gets less than it asks for only when it has got all
      that was received, and without an error all that the peer sends. */
  method ReadMany(buf: Buffer, n: nat) returns (m: nat)
    requires buf.Valid()
    modifies buf, buf.getBuffer
    ensures buf.Valid() && m <= n
    ensures |buf.taken| == |old(buf.taken)| + m && old(buf.taken) <= buf.taken <= buf.received
    ensures buf.received + Given(buf.receivePlan) == old(buf.received) + Given(old(buf.receivePlan))
    ensures m < n ==> buf.taken == buf.received
    ensures Flowing(old(buf.receivePlan)) && m < n ==> buf.taken == old(buf.received) + Given(old(buf.receivePlan))
  {
    m := 0;
    while m < n
      invariant buf.Valid() && m <= n
      invariant |buf.taken| == |old(buf.taken)| + m && old(buf.taken) <= buf.taken <= buf.received
      invariant buf.received + Given(buf.receivePlan) == old(buf.received) + Given(old(buf.receivePlan))
      invariant Flowing(old(buf.receivePlan)) ==> Flowing(buf.receivePlan)
    {
      FlowingArrives(buf.receivePlan);
      var eof, b := buf.Bump();
      if eof {
        assert buf.received + [] == buf.received;
        return;
      }
      m := m + 1;
    }
  }

  // --- Whole sessions ------------------------------------------------------------------------

  datatype PutOp = PutByte(b: byte) | Flush | TurnOff

  function Handed(ops: seq<PutOp>): seq<byte> {
    if ops == [] then [] else (if ops[0].PutByte? then [ops[0].b] else []) + Handed(ops[1..])
  }

  /** Any run of puts, flushes and attempts to turn buffering off, with any partial
      sends: unless a send failed, the bytes sent followed by the put area are the
      bytes handed over, in order. */
  method Replay(buf: Buffer, ops: seq<PutOp>) returns (ok: bool)
    requires buf.Valid()
    modifies buf, buf.putBuffer
    ensures buf.Valid() && (buf.putBuffer == old(buf.putBuffer) || fresh(buf.putBuffer))
    ensures ok ==> buf.Written() == old(buf.Written()) + Handed(ops)
    ensures Benign(old(buf.sendPlan)) ==> ok && Benign(buf.sendPlan)
  {
    var rest := ops;
    ghost var done: seq<byte> := [];
    assert buf.Written() + done == buf.Written();
    ok := true;
    while rest != []
      invariant buf.Valid() && (buf.putBuffer == old(buf.putBuffer) || fresh(buf.putBuffer))
      invariant ok ==> buf.Written() == old(buf.Written()) + done && done + Handed(rest) == Handed(ops)
      invariant Benign(old(buf.sendPlan)) ==> ok && Benign(buf.sendPlan)
      decreases |rest|
    {
      ghost var step := if rest[0].PutByte? then [rest[0].b] else [];
      Joined(done, step, Handed(rest[1..]));
      Unstopped(buf.sendPlan);
      match rest[0] {
        case PutByte(b) => var fine, _ := buf.Put(b); ok := ok && fine;
        case Flush => var fine, _ := buf.Sync(); ok := ok && fine;
        case TurnOff => var _ := buf.Unbuffer();
      }
      done := done + step;
      rest := rest[1..];
    }
    assert done + [] == done;
  }

  lemma Unstopped(plan: seq<SendOutcome>)
    ensures Benign(plan) ==> forall n: nat :: Send(plan, n).gone == n && Benign(Send(plan, n).rest)
  {
    if Benign(plan) {
      forall n: nat ensures Send(plan, n).gone == n && Benign(Send(plan, n).rest) {
        BenignSends(plan, n);
      }
    }
  }

  lemma Joined(a: seq<byte>, b: seq<byte>, c: seq<byte>)
    ensures (a + b) + c == a + (b + c)
  {
  }

  /** The buffered and the unbuffered form agree: after the same operations and a
      final flush, both have sent the same bytes, however differently the partial
      sends fell. */
  method Agree(a: Buffer, b: Buffer, ops: seq<PutOp>) returns (ok: bool)
    requires a.Valid() && b.Valid() && a != b
    requires a.putBuffer != b.putBuffer && a.getBuffer != b.putBuffer && b.getBuffer != a.putBuffer
    requires a.Written() == b.Written()
    modifies a, b, a.putBuffer, b.putBuffer
    ensures ok ==> a.sent == b.sent == old(a.Written()) + Handed(ops)
    ensures Benign(old(a.sendPlan)) && Benign(old(b.sendPlan)) ==> ok
  {
    var first := Replay(a, ops);
    var second := Replay(b, ops);
    ok := first && second;
    if ok {
      ghost var all := a.Written();
      Unstopped(a.sendPlan);
      Unstopped(b.sendPlan);
      var third, _ := a.Sync();
      var fourth, _ := b.Sync();
      ok := third && fourth;
    }
  }

  /** A flush, and a second one if the first has failed.  The put area keeps what the
      first has sent, so the second sends it again. */
  method Retry(buf: Buffer) returns (failed: bool, ok: bool, ghost k: nat)
    requires buf.Valid()
    modifies buf, buf.putBuffer
    ensures buf.Valid()
    ensures var first := Send(old(buf.sendPlan), |old(buf.Pending())|);
            && k == first.gone
            && (failed <==> k < |old(buf.Pending())|)
            && (ok <==> !failed || Send(first.rest, |old(buf.Pending())|).gone == |old(buf.Pending())|)
    ensures !failed ==> buf.sent == old(buf.Written())
    ensures failed && ok ==> buf.sent == old(buf.sent) + old(buf.Pending())[..k] + old(buf.Pending())
    ensures ok ==> buf.Pending() == []
    ensures failed && ok ==> (buf.sent == old(buf.Written()) <==> k == 0)
    ensures ok && |old(buf.Pending())| <= 1 ==> buf.sent == old(buf.Written())
  {
    ghost var sent, pending := buf.sent, buf.Pending();
    ok, k := buf.Sync();
    failed := !ok;
    if failed {
      ghost var again: nat;
      ok, again := buf.Sync();
      Repeated(sent, pending, k);
    }
  }

  /** The first attempt to send `n` bytes fails and the second succeeds. */
  predicate FailsOnce(plan: seq<SendOutcome>, n: nat) {
    Send(plan, n).gone < n && Send(Send(plan, n).rest, n).gone == n
  }

  /** What the peer has got after a failed and a successful flush. */
  function SentTwice(sent: seq<byte>, pending: seq<byte>, plan: seq<SendOutcome>): seq<byte> {
    sent + pending[..Send(plan, |pending|).gone] + pending
  }

  /** A writer may rely on a retry, whatever the network does, exactly when no more
      than one byte is pending: one byte goes completely or not at all. */
  lemma RetryHarmless(sent: seq<byte>, pending: seq<byte>)
    ensures (forall plan | FailsOnce(plan, |pending|) :: SentTwice(sent, pending, plan) == sent + pending)
       <==> |pending| <= 1
  {
    if |pending| <= 1 {
      forall plan | FailsOnce(plan, |pending|) ensures SentTwice(sent, pending, plan) == sent + pending {
        Repeated(sent, pending, 0);
      }
    } else {
      var plan := [Accepts(1), Breaks];
      BreaksOnce();
      assert FailsOnce(plan, |pending|);
      Repeated(sent, pending, 1);
    }
  }

  /** A buffer in which it happens: of two bytes the first goes, then the connection
      fails for a moment, and the peer gets the first byte twice. */
  method SendsTwice(a: byte, b: byte) returns (buf: Buffer)
    ensures fresh(buf) && buf.Valid()
    ensures buf.sent == [a, a, b] && buf.Pending() == []
  {
    BreaksOnce();
    buf := new Buffer([Accepts(1), Breaks], []);
    var one, _ := buf.Put(a);
    var two, _ := buf.Put(b);
    assert buf.Pending() == [a, b];
    var failed, ok, k := Retry(buf);
    assert buf.sent == [] + [a, b][..1] + [a, b];
  }

  lemma BreaksOnce()
    ensures forall n | n >= 2 :: Send([Accepts(1), Breaks], n) == Sending(1, [], SystemError)
  {
    var plan := [Accepts(1), Breaks];
    assert plan[1..] == [Breaks] && [Breaks][1..] == [];
    forall n | n >= 2 ensures Send(plan, n) == Sending(1, [], SystemError) {
      assert Send([Breaks], n - 1) == Sending(0, [], SystemError);
    }
  }
}
