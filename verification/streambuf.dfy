/** `basic_streambuf`: one array, four offsets, and a byte queue behind them.

    The input sequence is `buffer[g..p]` and the put area is `buffer[p..pe]`.
    Making room moves the input sequence to the front of the array and may
    replace the array by a longer one.
 */
module Streambuf {
  import opened Wrappers

  newtype byte = b: int | 0 <= b < 256

  /** `buffer_delta` */
  const DELTA: nat := 128

  function Min(a: int, b: int): int { if a < b then a else b }

  function Max(a: int, b: int): int { if a > b then a else b }

  /** What the input sequence becomes when its bytes have been moved to the front
      of the array while the offsets still point to where they were, `shift`
      places further on. */
  function Slid(data: seq<byte>, shift: nat): (slid: seq<byte>)
    ensures |slid| == |data|
  {
    seq(|data|, i requires 0 <= i < |data| => if shift + i < |data| then data[shift + i] else data[i])
  }

  /** The move is harmless exactly when nothing was moved, the two places do not
      overlap, or the data repeats itself at that distance. */
  lemma SlidHarmless(data: seq<byte>, shift: nat)
    ensures Slid(data, shift) == data <==> shift >= |data| || data[shift..] == data[..|data| - shift]
  {
  }

  class Buffer {
    const maxSize: nat
    var buffer: array<byte>
    var g: nat    // gptr
    var eg: nat   // egptr
    var p: nat    // pptr
    var pe: nat   // epptr

    ghost predicate Valid()
      reads this
    {
      && g <= eg <= p <= pe
      && buffer.Length == Max(pe, 1)
      && pe <= maxSize
    }

    /** The input sequence. */
    function Contents(): seq<byte>
      reads this, buffer
      requires Valid()
    {
      buffer[g..p]
    }

    /** The put area. */
    function PutArea(): seq<byte>
      reads this, buffer
      requires Valid()
    {
      buffer[p..pe]
    }

    constructor (maximumSize: nat)
      ensures Valid() && fresh(buffer) && maxSize == maximumSize
      ensures Contents() == [] && |PutArea()| == Min(maximumSize, DELTA) && g == 0
    {
      maxSize := maximumSize;
      var pend := Min(maximumSize, DELTA);
      buffer := new byte[Max(pend, 1)];
      g, eg, p, pe := 0, 0, 0, pend;
    }

    method Size() returns (n: nat)
      requires Valid()
      ensures n == |Contents()|
    {
      n := p - g;
    }

    /** Makes a put area of at least `n` bytes and keeps the input sequence.  It
        throws exactly when both together would exceed the maximum; then the
        bytes may already have been moved. */
    method Reserve(n: nat) returns (ok: bool)
      requires Valid()
      modifies this, buffer
      ensures Valid() && (buffer == old(buffer) || fresh(buffer))
      ensures ok <==> old(|Contents()|) + n <= maxSize
      ensures ok ==> Contents() == old(Contents()) && |PutArea()| >= n
      ensures n <= old(|PutArea()|) ==> unchanged(this) && buffer[..] == old(buffer[..])
      ensures ok && n > old(|PutArea()|) ==> g == 0 && |PutArea()| == Max(n, old(|PutArea()| + g))
      ensures !ok ==> unchanged(this) && Contents() == Slid(old(Contents()), old(g))
    {
      var pnext, pend := p, pe;
      if n <= pend - pnext {
        return true;
      }
      ghost var data := Contents();
      Compact();
      pnext := pnext - g;
      if n > pend - pnext {
        if n <= maxSize && pnext <= maxSize - n {
          pend := pnext + n;
          Resize(Max(pend, 1));
        } else {
          return false;
        }
      }
      g, eg, p, pe := 0, pnext, pnext, pend;
      assert buffer[0..pnext] == buffer[..pnext] == data;
      ok := true;
    }

    /** Moves the input sequence to the front of the array; the offsets stay. */
    method Compact()
      requires Valid()
      modifies buffer
      ensures Valid()
      ensures buffer[..p - g] == old(Contents())
      ensures Contents() == Slid(old(Contents()), g)
    {
      if g > 0 {
        MoveToFront(p - g);
      } else {
        SlidHarmless(Contents(), 0);
        assert buffer[..p - g] == buffer[g..p];
      }
    }

    /** `std::memmove(&buffer_[0], &buffer_[0] + gnext, n)` */
    method MoveToFront(n: nat)
      requires Valid() && n == p - g
      modifies buffer
      ensures Valid()
      ensures buffer[..n] == old(Contents())
      ensures g + n <= buffer.Length && buffer[g..p] == Slid(old(Contents()), g)
    {
      var i := 0;
      while i < n
        invariant 0 <= i <= n
        invariant forall k | 0 <= k < i :: buffer[k] == old(buffer[g + k])
        invariant forall k | i <= k < buffer.Length :: buffer[k] == old(buffer[k])
      {
        buffer[i] := buffer[g + i];
        i := i + 1;
      }
      ghost var data := old(Contents());
      assert forall k | 0 <= k < n :: buffer[..n][k] == data[k];
      assert forall k | 0 <= k < n :: buffer[g..p][k] == Slid(data, g)[k];
    }

    /** `buffer_.resize(n)`, upwards. */
    method Resize(n: nat)
      requires n >= buffer.Length
      modifies this`buffer
      ensures fresh(buffer) && buffer.Length == n
      ensures buffer[..old(buffer.Length)] == old(buffer[..])
    {
      var shorter, longer := buffer, new byte[n];
      var i := 0;
      while i < shorter.Length
        invariant 0 <= i <= shorter.Length
        invariant buffer == shorter
        invariant forall k | 0 <= k < i :: longer[k] == shorter[k]
      {
        longer[i] := shorter[i];
        i := i + 1;
      }
      buffer := longer;
      assert forall k | 0 <= k < shorter.Length :: buffer[..shorter.Length][k] == shorter[..][k];
    }

    method Prepare(n: nat) returns (ok: bool)
      requires Valid()
      modifies this, buffer
      ensures Valid() && (buffer == old(buffer) || fresh(buffer))
      ensures ok <==> old(|Contents()|) + n <= maxSize
      ensures ok ==> Contents() == old(Contents()) && |PutArea()| >= n
      ensures n <= old(|PutArea()|) ==> unchanged(this) && buffer[..] == old(buffer[..])
      ensures !ok ==> unchanged(this) && Contents() == Slid(old(Contents()), old(g))
      ensures Contents() == old(Contents()) <==>
              ok || old(g) >= |old(Contents())| || old(Contents())[old(g)..] == old(Contents())[..|old(Contents())| - old(g)]
    {
      SlidHarmless(Contents(), g);
      ok := Reserve(n);
    }

    /** The kernel, or TLS, writes received bytes to the start of the put area. */
    method Fill(bytes: seq<byte>)
      requires Valid() && |bytes| <= |PutArea()|
      modifies buffer
      ensures Valid() && Contents() == old(Contents())
      ensures PutArea() == bytes + old(PutArea())[|bytes|..]
    {
      var i := 0;
      while i < |bytes|
        invariant 0 <= i <= |bytes|
        invariant forall k | 0 <= k < buffer.Length ::
                    buffer[k] == if p <= k < p + i then bytes[k - p] else old(buffer[k])
      {
        buffer[p + i] := bytes[i];
        i := i + 1;
      }
      ghost var area := bytes + old(PutArea())[|bytes|..];
      assert |PutArea()| == |area|;
      assert forall k | 0 <= k < |area| :: PutArea()[k] == area[k];
    }

    /** Appends the first `n` bytes of the put area, or all of it. */
    method Commit(n: nat)
      requires Valid()
      modifies this
      ensures Valid() && buffer == old(buffer) && unchanged(this`g)
      ensures var k := Min(n, old(|PutArea()|));
              && Contents() == old(Contents()) + old(PutArea())[..k]
              && PutArea() == old(PutArea())[k..]
    {
      var k := Min(n, pe - p);
      assert buffer[g..p + k] == Contents() + PutArea()[..k];
      assert buffer[p + k..pe] == PutArea()[k..];
      p := p + k;
      eg := p;
    }

    /** Drops the first `n` bytes of the input sequence, or all of it. */
    method Consume(n: nat)
      requires Valid()
      modifies this
      ensures Valid() && buffer == old(buffer)
      ensures Contents() == old(Contents())[Min(n, old(|Contents()|))..]
      ensures PutArea() == old(PutArea())
      ensures g == old(g) + Min(n, old(|Contents()|))
    {
      if eg < p {
        eg := p;
      }
      var k := n;
      if g + k > p {
        k := p - g;
      }
      g := g + k;
    }

    /** `sbumpc`, with `underflow` when the get area is used up: takes one byte,
        or reports end of file exactly when the input sequence is empty. */
    method Bump() returns (eof: bool, b: byte)
      requires Valid()
      modifies this
      ensures Valid() && buffer == old(buffer) && PutArea() == old(PutArea())
      ensures eof <==> old(Contents()) == []
      ensures eof ==> Contents() == old(Contents())
      ensures !eof ==> old(Contents()) == [b] + Contents()
    {
      if g == eg {
        var more := Underflow();
        if !more {
          return true, 0;
        }
      }
      b := buffer[g];
      g := g + 1;
      eof := false;
    }

    method Underflow() returns (more: bool)
      requires Valid()
      modifies this
      ensures Valid() && buffer == old(buffer) && unchanged(this`g, this`p, this`pe)
      ensures more <==> Contents() != []
      ensures more ==> g < eg
    {
      more := g < p;
      if more {
        eg := p;
      }
    }

    /** Appends a byte; an end-of-file character is not stored.  It throws exactly
        when there is a byte and the input sequence is as long as the buffer may
        become. */
    method Overflow(c: Option<byte>) returns (ok: bool)
      requires Valid()
      modifies this, buffer
      ensures Valid() && (buffer == old(buffer) || fresh(buffer))
      ensures ok <==> c == None || old(|Contents()|) < maxSize
      ensures Contents() == old(Contents()) + if ok && c.Some? then [c.value] else []
      ensures ok && c.Some? && old(PutArea()) == [] ==> |PutArea()| + 1 >= Min(128, maxSize - old(|Contents()|))
    {
      ok := true;
      if c.Some? {
        if p == pe {
          ok := Grow();
        }
        if ok {
          Store(c.value);
        }
      }
    }

    /** The growth policy of `overflow`. */
    method Grow() returns (ok: bool)
      requires Valid() && p == pe
      modifies this, buffer
      ensures Valid() && (buffer == old(buffer) || fresh(buffer))
      ensures ok <==> old(|Contents()|) < maxSize
      ensures ok ==> p < pe && pe - p >= Min(128, maxSize - old(|Contents()|))
      ensures Contents() == old(Contents())
    {
      var size := p - g;
      if size < maxSize && maxSize - size < DELTA {
        ok := Reserve(maxSize - size);
      } else {
        ok := Reserve(DELTA);
        if !ok {
          assert size == maxSize && g == 0;
          SlidHarmless(old(Contents()), 0);
        }
      }
    }

    method Store(b: byte)
      requires Valid() && p < pe
      modifies this, buffer
      ensures Valid() && buffer == old(buffer) && unchanged(this`g, this`pe)
      ensures Contents() == old(Contents()) + [b]
    {
      ghost var data := Contents();
      buffer[p] := b;
      p := p + 1;
      assert buffer[g..p] == data + [b];
    }

    /** `sputc` for every character, which is what writing a string through an
        output stream does.  Stops at the first character that does not fit. */
    method Put(bytes: seq<byte>) returns (n: nat)
      requires Valid()
      modifies this, buffer
      ensures Valid() && (buffer == old(buffer) || fresh(buffer))
      ensures n == Min(|bytes|, maxSize - old(|Contents()|))
      ensures Contents() == old(Contents()) + bytes[..n]
    {
      n := 0;
      while n < |bytes|
        invariant 0 <= n <= |bytes|
        invariant Valid() && (buffer == old(buffer) || fresh(buffer))
        invariant Contents() == old(Contents()) + bytes[..n]
      {
        if p < pe {
          Store(bytes[n]);
        } else {
          var ok := Overflow(Some(bytes[n]));
          if !ok {
            return;
          }
        }
        n := n + 1;
      }
    }

    /** The size that a read operation prepares.  `capacity` is that of the vector,
        at least its size. */
    method ReadSizeHelper(capacity: nat, limit: nat) returns (n: nat)
      requires Valid() && buffer.Length <= capacity
      ensures n <= limit && |Contents()| + n <= maxSize
      ensures n == 0 <==> limit == 0 || |Contents()| == maxSize
      ensures n < limit && |Contents()| + n < maxSize ==> n >= 512 && |Contents()| + n >= capacity
      ensures n <= 512 || |Contents()| + n <= capacity
    {
      var size := p - g;
      n := Min(Max(512, capacity - size), Min(limit, maxSize - size));
    }
  }

  /** A buffer that a refused `prepare` damages: of four bytes one has been consumed,
      and the three unread ones leave no room for two more. */
  method RefusedPrepareDamages(a: byte, b: byte, c: byte, d: byte) returns (buf: Buffer, before: seq<byte>, ok: bool)
    ensures fresh(buf) && buf.Valid()
    ensures !ok && before == [b, c, d] && buf.Contents() == [c, d, d]
  {
    buf := new Buffer(4);
    buf.Fill([a, b, c, d]);
    buf.Commit(4);
    buf.Consume(1);
    before := buf.Contents();
    ok := buf.Prepare(2);
  }

  // --- The bounded queue that a buffer refines -------------------------------------

  datatype QueueOp =
    | MakeRoom(n: nat)             // prepare
    | Receive(bytes: seq<byte>)    // prepare, fill, commit
    | Append(b: byte)              // sputc
    | Drop(n: nat)                 // consume
    | Take                         // sbumpc

  predicate Fits(data: seq<byte>, op: QueueOp, maxSize: nat) {
    match op
    case MakeRoom(n) => |data| + n <= maxSize
    case Receive(bytes) => |data| + |bytes| <= maxSize
    case Append(_) => |data| < maxSize
    case _ => true
  }

  function Queued(data: seq<byte>, op: QueueOp): seq<byte> {
    match op
    case MakeRoom(_) => data
    case Receive(bytes) => data + bytes
    case Append(b) => data + [b]
    case Drop(n) => data[Min(n, |data|)..]
    case Take => data[Min(1, |data|)..]
  }

  predicate AllFit(data: seq<byte>, ops: seq<QueueOp>, maxSize: nat)
    decreases ops
  {
    ops != [] ==> Fits(data, ops[0], maxSize) && AllFit(Queued(data, ops[0]), ops[1..], maxSize)
  }

  function AllQueued(data: seq<byte>, ops: seq<QueueOp>): seq<byte>
    decreases ops
  {
    if ops == [] then data else AllQueued(Queued(data, ops[0]), ops[1..])
  }

  method Perform(buf: Buffer, op: QueueOp) returns (ok: bool)
    requires buf.Valid()
    modifies buf, buf.buffer
    ensures buf.Valid() && (buf.buffer == old(buf.buffer) || fresh(buf.buffer))
    ensures ok <==> Fits(old(buf.Contents()), op, buf.maxSize)
    ensures ok ==> buf.Contents() == Queued(old(buf.Contents()), op)
  {
    ok := true;
    match op {
      case MakeRoom(n) =>
        ok := buf.Prepare(n);
      case Receive(bytes) =>
        ok := ReceiveInto(buf, bytes);
      case Append(b) =>
        if buf.p < buf.pe { buf.Store(b); } else { ok := buf.Overflow(Some(b)); }
      case Drop(n) =>
        buf.Consume(n);
      case Take =>
        DropFirst(buf);
    }
  }

  /** What a read operation does with the buffer. */
  method ReceiveInto(buf: Buffer, bytes: seq<byte>) returns (ok: bool)
    requires buf.Valid()
    modifies buf, buf.buffer
    ensures buf.Valid() && (buf.buffer == old(buf.buffer) || fresh(buf.buffer))
    ensures ok <==> |old(buf.Contents())| + |bytes| <= buf.maxSize
    ensures ok ==> buf.Contents() == old(buf.Contents()) + bytes
  {
    ok := buf.Prepare(|bytes|);
    if ok {
      buf.Fill(bytes);
      assert buf.PutArea()[..|bytes|] == bytes;
      buf.Commit(|bytes|);
    }
  }

  method DropFirst(buf: Buffer)
    requires buf.Valid()
    modifies buf
    ensures buf.Valid() && buf.buffer == old(buf.buffer)
    ensures buf.Contents() == old(buf.Contents())[Min(1, |old(buf.Contents())|)..]
  {
    ghost var data := buf.Contents();
    var eof, b := buf.Bump();
    assert !eof ==> data[1..] == buf.Contents();
  }

  /** Any sequence of operations: the buffer completes it exactly when the bounded
      queue can, and then holds what the queue holds. */
  method Replay(buf: Buffer, ops: seq<QueueOp>) returns (ok: bool)
    requires buf.Valid()
    modifies buf, buf.buffer
    ensures buf.Valid()
    ensures ok <==> AllFit(old(buf.Contents()), ops, buf.maxSize)
    ensures ok ==> buf.Contents() == AllQueued(old(buf.Contents()), ops)
  {
    var rest := ops;
    while rest != []
      invariant buf.Valid() && (buf.buffer == old(buf.buffer) || fresh(buf.buffer))
      invariant AllFit(old(buf.Contents()), ops, buf.maxSize) <==> AllFit(buf.Contents(), rest, buf.maxSize)
      invariant AllQueued(old(buf.Contents()), ops) == AllQueued(buf.Contents(), rest)
      decreases |rest|
    {
      ok := Perform(buf, rest[0]);
      if !ok {
        return;
      }
      rest := rest[1..];
    }
    ok := true;
  }

  /** What goes in, in order. */
  function In(ops: seq<QueueOp>): seq<byte> {
    if ops == [] then []
    else Arriving(ops[0]) + In(ops[1..])
  }

  /** What comes out, in order. */
  function Out(data: seq<byte>, ops: seq<QueueOp>): seq<byte>
    decreases ops
  {
    if ops == [] then []
    else Leaving(data, ops[0]) + Out(Queued(data, ops[0]), ops[1..])
  }

  /** First in, first out: nothing is lost, duplicated or reordered. */
  lemma {:induction false} QueueConserves(data: seq<byte>, ops: seq<QueueOp>)
    ensures data + In(ops) == Out(data, ops) + AllQueued(data, ops)
    decreases ops
  {
    if ops != [] {
      var next := Queued(data, ops[0]);
      OneConserves(data, ops[0]);
      QueueConserves(next, ops[1..]);
      Chain(data, Arriving(ops[0]), Leaving(data, ops[0]), next,
            In(ops[1..]), Out(next, ops[1..]), AllQueued(next, ops[1..]));
    }
  }

  lemma OneConserves(data: seq<byte>, op: QueueOp)
    ensures data + Arriving(op) == Leaving(data, op) + Queued(data, op)
  {
  }

  lemma Chain(a: seq<byte>, b: seq<byte>, c: seq<byte>, d: seq<byte>, e: seq<byte>, f: seq<byte>, h: seq<byte>)
    requires a + b == c + d && d + e == f + h
    ensures a + (b + e) == (c + f) + h
  {
    assert a + (b + e) == (a + b) + e == (c + d) + e == c + (d + e) == c + (f + h) == (c + f) + h;
  }

  function Arriving(op: QueueOp): seq<byte> {
    match op case Receive(bytes) => bytes case Append(b) => [b] case _ => []
  }

  function Leaving(data: seq<byte>, op: QueueOp): seq<byte> {
    match op case Drop(n) => data[..Min(n, |data|)] case Take => data[..Min(1, |data|)] case _ => []
  }
}
