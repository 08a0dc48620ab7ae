/**
  Length-prefixed messages over a byte stream, `transport.py`.

  A socket delivers the bytes of the stream in order and in pieces of its own choosing;
  pickling is an encoding that loading undoes.
 */
module Transport {
  import opened Wrappers

  type Byte = x: int | 0 <= x < 256

  const HEADER_SIZE: nat := 4
  const MAX_MESSAGE_SIZE: nat := 256 * 1024 * 1024

  /** `struct.pack("!I", n)`. */
  function Pack(n: nat): (h: seq<Byte>)
    requires n < 0x1_0000_0000
    ensures |h| == HEADER_SIZE
  {
    [n / 0x100_0000, n / 0x1_0000 % 0x100, n / 0x100 % 0x100, n % 0x100]
  }

  /** `struct.unpack("!I", h)`. */
  function Unpack(h: seq<Byte>): nat
    requires |h| == HEADER_SIZE
  {
    h[0] as int * 0x100_0000 + h[1] as int * 0x1_0000 + h[2] as int * 0x100 + h[3]
  }

  lemma PackRoundTrip(n: nat)
    requires n < 0x1_0000_0000
    ensures Unpack(Pack(n)) == n
  {
    var a, b, c := n / 0x100, n / 0x1_0000, n / 0x100_0000;
    assert n == a * 0x100 + n % 0x100;
    assert a == b * 0x100 + a % 0x100;
    assert b == c * 0x100 + b % 0x100;
  }

  lemma UnpackRoundTrip(h: seq<Byte>)
    requires |h| == HEADER_SIZE
    ensures Unpack(h) < 0x1_0000_0000 && Pack(Unpack(h)) == h
  {
    var n := Unpack(h);
    assert n / 0x100 == h[0] as int * 0x1_0000 + h[1] as int * 0x100 + h[2];
    assert n / 0x1_0000 == h[0] as int * 0x100 + h[1];
    assert n / 0x100_0000 == h[0];
  }

  /** The lexicographic order of byte strings of the same length. */
  predicate Precedes(p: seq<Byte>, q: seq<Byte>)
    requires |p| == |q|
  {
    p != [] && (p[0] < q[0] || (p[0] == q[0] && Precedes(p[1..], q[1..])))
  }

  /** The header is in network byte order: longer messages have later headers. */
  lemma PackIsMonotone(m: nat, n: nat)
    requires m < 0x1_0000_0000 && n < 0x1_0000_0000
    ensures m < n <==> Precedes(Pack(m), Pack(n))
  {
    PackRoundTrip(m);
    PackRoundTrip(n);
    UnpackIsMonotone(Pack(m), Pack(n));
    hide Pack, Unpack;
  }

  lemma UnpackIsMonotone(p: seq<Byte>, q: seq<Byte>)
    requires |p| == HEADER_SIZE && |q| == HEADER_SIZE
    ensures Unpack(p) < Unpack(q) <==> Precedes(p, q)
  {
    var p1, q1 := p[1..], q[1..];
    var p2, q2 := p1[1..], q1[1..];
    var p3, q3 := p2[1..], q2[1..];
    assert Precedes(p3, q3) <==> p[3] < q[3] by {
      assert p3[1..] == [] && p3[0] == p[3] && q3[0] == q[3];
    }
    assert Precedes(p2, q2) <==> p[2] < q[2] || (p[2] == q[2] && p[3] < q[3]);
    assert Precedes(p1, q1) <==> p[1] < q[1] || (p[1] == q[1] && Precedes(p2, q2));
  }

  function Frame(data: seq<Byte>): seq<Byte>
    requires |data| <= MAX_MESSAGE_SIZE
  {
    Pack(|data|) + data
  }

  /** What the next bytes of a stream hold. */
  datatype Parsed = Payload(data: seq<Byte>, rest: seq<Byte>) | EndOfStream | Oversize(length: nat)

  function Parse(stream: seq<Byte>): (p: Parsed)
    ensures p.Payload? ==> |p.rest| < |stream|
  {
    if |stream| < HEADER_SIZE then EndOfStream
    else
      var length := Unpack(stream[..HEADER_SIZE]);
      if length > MAX_MESSAGE_SIZE then Oversize(length)
      else if |stream| < HEADER_SIZE + length then EndOfStream
      else Payload(stream[HEADER_SIZE..HEADER_SIZE + length], stream[HEADER_SIZE + length..])
  }

  /** A header, and what follows it. */
  lemma ParseInSteps(stream: seq<Byte>)
    ensures |stream| < HEADER_SIZE ==> Parse(stream) == EndOfStream
    ensures |stream| >= HEADER_SIZE ==>
      var length, rest := Unpack(stream[..HEADER_SIZE]), stream[HEADER_SIZE..];
      Parse(stream) ==
        if length > MAX_MESSAGE_SIZE then Oversize(length)
        else if |rest| < length then EndOfStream
        else Payload(rest[..length], rest[length..])
  {
    hide Unpack;
    if |stream| >= HEADER_SIZE {
      var length, rest := Unpack(stream[..HEADER_SIZE]), stream[HEADER_SIZE..];
      if length <= |rest| {
        assert rest[..length] == stream[HEADER_SIZE..HEADER_SIZE + length];
        assert rest[length..] == stream[HEADER_SIZE + length..];
      }
    }
  }

  lemma ParseFrame(data: seq<Byte>, rest: seq<Byte>)
    requires |data| <= MAX_MESSAGE_SIZE
    ensures Parse(Frame(data) + rest) == Payload(data, rest)
  {
    var stream := Frame(data) + rest;
    assert stream[..HEADER_SIZE] == Pack(|data|);
    PackRoundTrip(|data|);
    assert stream[HEADER_SIZE..HEADER_SIZE + |data|] == data;
    assert stream[HEADER_SIZE + |data|..] == rest;
  }

  /** Part of a frame is never mistaken for a message. */
  lemma ParsePartOfFrame(data: seq<Byte>, k: nat)
    requires |data| <= MAX_MESSAGE_SIZE && k < |Frame(data)|
    ensures Parse(Frame(data)[..k]) == EndOfStream
  {
    if k >= HEADER_SIZE {
      assert Frame(data)[..k][..HEADER_SIZE] == Pack(|data|);
      PackRoundTrip(|data|);
    }
  }

  /** Nothing but a frame parses as a message. */
  lemma ParsedIsFrame(stream: seq<Byte>)
    requires Parse(stream).Payload?
    ensures |Parse(stream).data| <= MAX_MESSAGE_SIZE && stream == Frame(Parse(stream).data) + Parse(stream).rest
  {
    UnpackRoundTrip(stream[..HEADER_SIZE]);
    var n := Unpack(stream[..HEADER_SIZE]);
    assert stream == stream[..HEADER_SIZE] + stream[HEADER_SIZE..HEADER_SIZE + n] + stream[HEADER_SIZE + n..];
  }

  // ------------------------------------------------------- sockets

  /** One end of a connection: the bytes still to arrive before the peer closes, and
      the bytes sent. */
  class Socket {
    var incoming: seq<Byte>
    var outgoing: seq<Byte>

    /** `recv`: between one and `limit` bytes, or none at the end of the stream. */
    method Recv(limit: nat) returns (chunk: seq<Byte>)
      requires limit > 0
      modifies this`incoming
      ensures old(incoming) == chunk + incoming && |chunk| <= limit
      ensures chunk == [] <==> old(incoming) == []
    {
      if incoming == [] {
        return [];
      }
      var k: nat :| 1 <= k <= limit && k <= |incoming| by {
        assert 1 <= limit && 1 <= |incoming|;
      }
      chunk := incoming[..k];
      incoming := incoming[k..];
    }

    /** `sendall`. */
    method SendAll(data: seq<Byte>)
      modifies this`outgoing
      ensures outgoing == old(outgoing) + data
    {
      outgoing := outgoing + data;
    }
  }

  /** `_recv_exact`: the next `n` bytes however they arrive, or None when the stream ends
      before that; bytes read in vain are gone. */
  method RecvExact(sock: Socket, n: nat) returns (data: Option<seq<Byte>>)
    modifies sock`incoming
    ensures n <= |old(sock.incoming)| ==>
      data == Some(old(sock.incoming)[..n]) && sock.incoming == old(sock.incoming)[n..]
    ensures n > |old(sock.incoming)| ==> data == None && sock.incoming == []
  {
    var received: seq<Byte> := [];
    while |received| < n
      invariant |received| <= n
      invariant old(sock.incoming) == received + sock.incoming
      decreases n - |received|
    {
      var chunk := sock.Recv(n - |received|);
      if chunk == [] {
        return None;
      }
      received := received + chunk;
    }
    return Some(received);
  }

  // ------------------------------------------------------- messages

  /** cloudpickle, and Python's `None`. */
  datatype Codec<!T(==,!new)> = Codec(dumps: T -> seq<Byte>, loads: seq<Byte> -> T, none: T)

  ghost predicate Lossless<T(!new)>(c: Codec<T>)
  {
    forall x :: c.loads(c.dumps(x)) == x
  }

  predicate Fits<T(==,!new)>(c: Codec<T>, x: T)
  {
    |c.dumps(x)| <= MAX_MESSAGE_SIZE
  }

  predicate AllFit<T(==,!new)>(c: Codec<T>, xs: seq<T>)
  {
    forall i :: 0 <= i < |xs| ==> Fits(c, xs[i])
  }

  datatype Received<T> = Object(x: T) | TooLarge(length: nat)

  /** `recv_msg`.  None stands for the end of the stream, and for a message that is None. */
  method RecvMsg<T(==,!new)>(sock: Socket, c: Codec<T>) returns (r: Received<T>)
    modifies sock`incoming
    ensures match Parse(old(sock.incoming))
      case Payload(data, rest) => r == Object(c.loads(data)) && sock.incoming == rest
      case EndOfStream => r == Object(c.none)
      case Oversize(n) => r == TooLarge(n) && sock.incoming == old(sock.incoming)[HEADER_SIZE..]
    ensures |sock.incoming| <= |old(sock.incoming)|
  {
    hide Parse, Unpack;
    ghost var stream := old(sock.incoming);
    ParseInSteps(stream);
    var header := RecvExact(sock, HEADER_SIZE);
    if header.None? {
      return Object(c.none);
    }
    var length := Unpack(header.value);
    if length > MAX_MESSAGE_SIZE {
      return TooLarge(length);
    }
    var data := RecvExact(sock, length);
    if data.None? {
      return Object(c.none);
    }
    return Object(c.loads(data.value));
  }

  /** `send_msg`: refuses what is too large before sending anything. */
  method SendMsg<T(==,!new)>(sock: Socket, c: Codec<T>, x: T) returns (refused: bool)
    modifies sock`outgoing
    ensures refused <==> !Fits(c, x)
    ensures refused ==> sock.outgoing == old(sock.outgoing)
    ensures !refused ==> sock.outgoing == old(sock.outgoing) + Frame(c.dumps(x))
  {
    var data := c.dumps(x);
    if |data| > MAX_MESSAGE_SIZE {
      return true;
    }
    sock.SendAll(Pack(|data|) + data);
    return false;
  }

  /** The bytes of a row of messages. */
  function Wire<T(==,!new)>(c: Codec<T>, xs: seq<T>): seq<Byte>
    requires AllFit(c, xs)
  {
    if xs == [] then [] else Frame(c.dumps(xs[0])) + Wire(c, xs[1..])
  }

  /** What a reader gets that reads until it gets None or an error. */
  function Heard<T(==,!new)>(c: Codec<T>, stream: seq<Byte>): seq<T>
    decreases |stream|
  {
    match Parse(stream)
    case Payload(data, rest) => if c.loads(data) == c.none then [] else [c.loads(data)] + Heard(c, rest)
    case EndOfStream => []
    case Oversize(_) => []
  }

  /** The reading loop of `HeadService._handle_connection`. */
  method ReceiveAll<T(==,!new)>(sock: Socket, c: Codec<T>) returns (xs: seq<T>)
    modifies sock`incoming
    ensures xs == Heard(c, old(sock.incoming))
  {
    xs := [];
    while true
      invariant xs + Heard(c, sock.incoming) == Heard(c, old(sock.incoming))
      decreases |sock.incoming|
    {
      var r := RecvMsg(sock, c);
      if r.TooLarge? || r.x == c.none {
        return;
      }
      xs := xs + [r.x];
    }
  }

  /** How many of the messages have arrived completely within the first `k` bytes. */
  function Complete<T(==,!new)>(c: Codec<T>, xs: seq<T>, k: nat): (m: nat)
    requires AllFit(c, xs)
    ensures m <= |xs|
  {
    if xs == [] || k < |Frame(c.dumps(xs[0]))| then 0
    else 1 + Complete(c, xs[1..], k - |Frame(c.dumps(xs[0]))|)
  }

  /** `Complete` counts exactly: `k` bytes hold that many messages and not one more. */
  lemma {:induction false} CompleteCounts<T(!new)>(c: Codec<T>, xs: seq<T>, k: nat)
    requires AllFit(c, xs)
    ensures var m := Complete(c, xs, k);
      |Wire(c, xs[..m])| <= k && (m < |xs| ==> k < |Wire(c, xs[..m + 1])|)
  {
    if xs != [] && k >= |Frame(c.dumps(xs[0]))| {
      var m := Complete(c, xs[1..], k - |Frame(c.dumps(xs[0]))|);
      CompleteCounts(c, xs[1..], k - |Frame(c.dumps(xs[0]))|);
      assert xs[..m + 1][1..] == xs[1..][..m];
      if m + 1 < |xs| {
        assert xs[..m + 2][1..] == xs[1..][..m + 1];
      }
    } else if xs != [] {
      assert xs[..1][1..] == [];
    }
  }

  /**
    Framing.  Of any row of messages within the size limit, sent over any connection that
    is cut after any number of bytes and delivers what it delivers in any pieces, the
    reader gets exactly the messages that arrived completely, in order: never a wrong
    one, and nothing after the cut.
   */
  lemma {:induction false} TruncatedStreamIsPrefix<T(!new)>(c: Codec<T>, xs: seq<T>, k: nat)
    requires Lossless(c) && c.none !in xs && AllFit(c, xs) && k <= |Wire(c, xs)|
    ensures Heard(c, Wire(c, xs)[..k]) == xs[..Complete(c, xs, k)]
  {
    hide Frame, Parse, Heard, Wire, Complete, Lossless, AllFit;
    if xs == [] {
      NothingHeard(c);
    } else {
      WireUnfolds(c, xs);
      var first, rest := Frame(c.dumps(xs[0])), Wire(c, xs[1..]);
      if k < |first| {
        assert (first + rest)[..k] == first[..k];
        PartHeard(c, xs, k);
      } else {
        var n := k - |first|;
        assert (first + rest)[..k] == first + rest[..n];
        FirstHeard(c, xs, rest[..n], k);
        TruncatedStreamIsPrefix(c, xs[1..], n);
        assert xs[..1 + Complete(c, xs[1..], n)] == [xs[0]] + xs[1..][..Complete(c, xs[1..], n)];
      }
    }
  }

  lemma NothingHeard<T(!new)>(c: Codec<T>)
    ensures AllFit(c, []) && Wire(c, []) == [] && Heard(c, []) == [] && Complete(c, [], 0) == 0
  {
  }

  lemma WireUnfolds<T(!new)>(c: Codec<T>, xs: seq<T>)
    requires AllFit(c, xs) && xs != []
    ensures Fits(c, xs[0]) && AllFit(c, xs[1..])
    ensures Wire(c, xs) == Frame(c.dumps(xs[0])) + Wire(c, xs[1..])
  {
    hide Frame;
  }

  /** Part of the first frame gives nothing. */
  lemma PartHeard<T(!new)>(c: Codec<T>, xs: seq<T>, k: nat)
    requires AllFit(c, xs) && xs != [] && Fits(c, xs[0]) && k < |Frame(c.dumps(xs[0]))|
    ensures Heard(c, Frame(c.dumps(xs[0]))[..k]) == [] && Complete(c, xs, k) == 0
  {
    hide Frame, Parse, Wire;
    ParsePartOfFrame(c.dumps(xs[0]), k);
  }

  /** The first frame gives the first message. */
  lemma FirstHeard<T(!new)>(c: Codec<T>, xs: seq<T>, tail: seq<Byte>, k: nat)
    requires Lossless(c) && AllFit(c, xs) && xs != [] && xs[0] != c.none && Fits(c, xs[0])
    requires k >= |Frame(c.dumps(xs[0]))|
    ensures AllFit(c, xs[1..])
    ensures Heard(c, Frame(c.dumps(xs[0])) + tail) == [xs[0]] + Heard(c, tail)
    ensures Complete(c, xs, k) == 1 + Complete(c, xs[1..], k - |Frame(c.dumps(xs[0]))|)
  {
    hide Frame, Parse, Wire;
    ParseFrame(c.dumps(xs[0]), tail);
    assert c.loads(c.dumps(xs[0])) == xs[0];
  }

  /** The whole stream arrives as exactly the messages sent, if and only if none of them
      is None: the reader takes a None for the end. */
  lemma {:induction false} StreamRoundTrip<T(!new)>(c: Codec<T>, xs: seq<T>)
    requires Lossless(c) && AllFit(c, xs)
    ensures Heard(c, Wire(c, xs)) == xs <==> c.none !in xs
  {
    if xs != [] {
      ParseFrame(c.dumps(xs[0]), Wire(c, xs[1..]));
      assert c.loads(c.dumps(xs[0])) == xs[0];
      StreamRoundTrip(c, xs[1..]);
      assert xs == [xs[0]] + xs[1..];
    }
  }
}
