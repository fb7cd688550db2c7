/** regent/socket.py: newline-terminated JSON messages over a stream socket,
    with the shared secret added to everything a `Socket` writes.

    The operating system is not modelled: an OS socket (`Conn`) is given the
    bytes its peer has sent and the outcome of each wait-then-receive in
    advance, and records what is sent on it. JSON encoding and decoding are a
    `Codec` supplied by the caller. */
module Transport {
  import opened Values

  /** The byte that ends a message. */
  const NL: byte := 10

  /** What `BaseSocket.read` asks `recv` for. */
  const RecvSize: nat := 4096

  type pos = n: int | n > 0 witness 1

  /** One `select` on the socket followed, when it reports the socket
      readable, by `recv(size)`: `recv` returns up to `limit` bytes of what the
      peer has sent (and no bytes once the peer has closed and everything has
      been read), or raises socket.error; or `select` times out. */
  datatype Event = Ready(limit: pos) | Silent | Broken(reason: string)

  /** The far end of a connection: the bytes it has sent that have not been
      read yet, and how the coming waits will go. Once the events run out,
      every further wait times out. */
  datatype Peer = Peer(stream: Bytes, events: seq<Event>)

  datatype Received = Data(bytes: Bytes) | TimedOut | Failed(reason: string)

  function Min(a: nat, b: nat): nat
  {
    if a < b then a else b
  }

  /** One wait-then-receive of at most `size` bytes. Data always comes from
      the front of the stream and is removed from it; every outcome but a
      timeout with no events left uses up one event. */
  function Wait(p: Peer, size: nat): (r: (Received, Peer))
    ensures r.0.Data? ==> p.events != [] && |r.1.events| == |p.events| - 1
    ensures r.0.Data? ==> |r.0.bytes| <= size && |r.0.bytes| <= |p.stream|
    ensures r.0.Data? ==> r.0.bytes == p.stream[..|r.0.bytes|]
    ensures r.0.Data? ==> r.1.stream == p.stream[|r.0.bytes|..]
    ensures r.0.Data? && size > 0 ==> (r.0.bytes == [] <==> p.stream == [])
    ensures !r.0.Data? ==> r.1.stream == p.stream
  {
    if p.events == [] then (TimedOut, p)
    else
      match p.events[0]
      case Silent => (TimedOut, Peer(p.stream, p.events[1..]))
      case Broken(why) => (Failed(why), Peer(p.stream, p.events[1..]))
      case Ready(limit) =>
        var k := Min(Min(limit, size), |p.stream|);
        (Data(p.stream[..k]), Peer(p.stream[k..], p.events[1..]))
  }

  /** What `accept` hands over: a new connection's peer and whether sending
      to it or closing it will fail. */
  datatype Incoming = Incoming(peer: Peer, sendFails: bool, closeFails: bool)

  /** An operating-system stream socket. */
  class Conn {
    var peer: Peer
    var sent: Bytes
    var closed: bool
    const sendFails: bool
    const closeFails: bool

    constructor(incoming: Incoming)
      ensures peer == incoming.peer && sendFails == incoming.sendFails && closeFails == incoming.closeFails
      ensures sent == [] && !closed
    {
      peer := incoming.peer;
      sendFails := incoming.sendFails;
      closeFails := incoming.closeFails;
      sent := [];
      closed := false;
    }

    /** `select([sock], [], [], timeout)` and then `sock.recv(size)`. */
    method SelectRecv(size: nat) returns (r: Received)
      modifies this`peer
      ensures (r, peer) == Wait(old(peer), size)
    {
      var w := Wait(peer, size);
      r, peer := w.0, w.1;
    }

    /** `sock.send(data)`; false when it raises socket.error. */
    method Send(data: Bytes) returns (ok: bool)
      modifies this`sent
      ensures ok == !sendFails
      ensures sent == if ok then old(sent) + data else old(sent)
    {
      ok := !sendFails;
      if ok {
        sent := sent + data;
      }
    }

    /** `sock.close()`; false when it raises socket.error. */
    method Close() returns (ok: bool)
      modifies this`closed
      ensures ok == !closeFails
      ensures closed == (old(closed) || ok)
    {
      ok := !closeFails;
      if ok {
        closed := true;
      }
    }
  }

  datatype Decoded = Parsed(value: Json) | Malformed(reason: string)

  /** `json.dumps` and `json.loads`. */
  datatype Codec = Codec(encode: Json -> Bytes, decode: Bytes -> Decoded)

  /** The codec behaves as the `json` module does for `x`: what it writes has
      no newline byte in it (newlines inside strings are escaped), and it reads
      that text back, with a trailing newline, as `x`. */
  ghost predicate Faithful(codec: Codec, x: Json)
  {
    NL !in codec.encode(x) && codec.decode(codec.encode(x) + [NL]) == Parsed(x)
  }

  predicate EndsWithNewline(raw: Bytes)
  {
    |raw| > 0 && raw[|raw| - 1] == NL
  }

  /** The loop of `BaseSocket.read`: starting from the buffer `raw`, receive
      chunks of up to 4096 bytes until the buffer ends with a newline. */
  function ReadLine(p: Peer, raw: Bytes): (r: (Result<Bytes>, Peer))
    ensures r.0.Ok? ==> EndsWithNewline(r.0.value)
    decreases |p.events|
  {
    if EndsWithNewline(raw) then (Ok(raw), p)
    else
      var w := Wait(p, RecvSize);
      match w.0
      case TimedOut => (Err(SocketError("Failed waiting for data")), w.1)
      case Failed(_) => (Err(SocketError("Could not read from client")), w.1)
      case Data(chunk) =>
        if |chunk| == 0 then (Err(SocketError("Unexpected end of data")), w.1)
        else ReadLine(w.1, raw + chunk)
  }

  /** The end of `BaseSocket.read`: a complete message that does not decode
      is a ProcessError, not a SocketError. */
  function DecodeFrame(codec: Codec, frame: Result<Bytes>): (r: Result<Json>)
    ensures frame.Err? ==> r == Err(frame.error)
    ensures frame.Ok? && codec.decode(frame.value).Parsed? ==> r == Ok(codec.decode(frame.value).value)
    ensures frame.Ok? && codec.decode(frame.value).Malformed? ==>
              r == Err(ProcessError("Invalid message, could not decode JSON: " + codec.decode(frame.value).reason))
  {
    match frame
    case Err(e) => Err(e)
    case Ok(raw) =>
      match codec.decode(raw)
      case Parsed(v) => Ok(v)
      case Malformed(why) => Err(ProcessError("Invalid message, could not decode JSON: " + why))
  }

  /** What `BaseSocket.write` sends for `data`: its JSON text and one newline. */
  function Framed(codec: Codec, data: Json): (f: Bytes)
    ensures EndsWithNewline(f) && f[..|f| - 1] == codec.encode(data)
  {
    codec.encode(data) + [NL]
  }

  /** The dictionary `Socket.write` hands on: the configured secret, then
      every key of `data` (so a `secret` in `data` wins). A plain
      `BaseSocket` (no secret) hands `data` on unchanged. */
  function Outgoing(secret: Option<string>, data: map<string, Json>): (out: map<string, Json>)
    ensures secret.None? ==> out == data
    ensures secret.Some? ==> out.Keys == data.Keys + {"secret"}
    ensures forall k :: k in data ==> out[k] == data[k]
    ensures secret.Some? && "secret" !in data ==> out["secret"] == JStr(secret.value)
  {
    match secret
    case None => data
    case Some(s) => map["secret" := JStr(s)] + data
  }

  /** `BaseSocket` (no secret) and `Socket` (with the shared secret) over an
      OS socket. */
  class Socket {
    const conn: Conn
    const secret: Option<string>
    const timeout: int

    constructor(conn: Conn, secret: Option<string>, timeout: int)
      ensures this.conn == conn && this.secret == secret && this.timeout == timeout
    {
      this.conn := conn;
      this.secret := secret;
      this.timeout := timeout;
    }

    /** `accept`: the new connection is a plain `BaseSocket` with this
        socket's timeout, so nothing written on it carries the secret. */
    method Accept(incoming: Incoming) returns (client: Socket)
      ensures fresh(client) && fresh(client.conn)
      ensures client.secret == None && client.timeout == timeout
      ensures client.conn.peer == incoming.peer && client.conn.sent == [] && !client.conn.closed
      ensures client.conn.sendFails == incoming.sendFails && client.conn.closeFails == incoming.closeFails
    {
      var c := new Conn(incoming);
      client := new Socket(c, None, timeout);
    }

    /** `read`: receive until the buffer ends with a newline, then decode. */
    method Read(codec: Codec) returns (r: Result<Json>)
      modifies conn`peer
      ensures conn.peer == ReadLine(old(conn.peer), []).1
      ensures r == DecodeFrame(codec, ReadLine(old(conn.peer), []).0)
    {
      var raw: Bytes := [];
      while !EndsWithNewline(raw)
        invariant ReadLine(conn.peer, raw) == ReadLine(old(conn.peer), [])
        decreases |conn.peer.events|
      {
        var got := conn.SelectRecv(RecvSize);
        match got
        case TimedOut =>
          return Err(SocketError("Failed waiting for data"));
        case Failed(_) =>
          return Err(SocketError("Could not read from client"));
        case Data(chunk) =>
          if |chunk| == 0 {
            return Err(SocketError("Unexpected end of data"));
          }
          raw := raw + chunk;
      }
      r := DecodeFrame(codec, Ok(raw));
    }

    /** `write`: one JSON message and one newline; a failing send becomes a
        SocketError. */
    method Write(codec: Codec, data: map<string, Json>) returns (r: Result<()>)
      modifies conn`sent
      ensures r.Ok? <==> !conn.sendFails
      ensures r.Err? ==> r.error == SocketError("Could not write to client")
      ensures conn.sent == old(conn.sent) + (if r.Ok? then Framed(codec, JDict(Outgoing(secret, data))) else [])
    {
      var ok := conn.Send(Framed(codec, JDict(Outgoing(secret, data))));
      if ok {
        r := Ok(());
      } else {
        r := Err(SocketError("Could not write to client"));
      }
    }

    /** `close`: a failing close becomes a SocketError. */
    method Close() returns (r: Result<()>)
      modifies conn`closed
      ensures r.Ok? <==> !conn.closeFails
      ensures r.Err? ==> r.error == SocketError("Client already disconnected")
      ensures conn.closed == (old(conn.closed) || r.Ok?)
    {
      var ok := conn.Close();
      if ok {
        r := Ok(());
      } else {
        r := Err(SocketError("Client already disconnected"));
      }
    }
  }

  // ---------------------------------------------------------------------
  // Properties of the newline framing
  // ---------------------------------------------------------------------

  /** Whatever happens, a read takes bytes only from the front of the stream;
      a message it returns is the old buffer followed by exactly the bytes it
      took. */
  lemma {:induction false} ReadLineTakesPrefix(p: Peer, raw: Bytes)
    ensures var (r, rest) := ReadLine(p, raw);
            && |rest.stream| <= |p.stream|
            && rest.stream == p.stream[|p.stream| - |rest.stream|..]
            && (r.Ok? ==> r.value == raw + p.stream[..|p.stream| - |rest.stream|])
    decreases |p.events|
  {
    if !EndsWithNewline(raw) {
      var w := Wait(p, RecvSize);
      if w.0.Data? && |w.0.bytes| > 0 {
        var chunk := w.0.bytes;
        ReadLineTakesPrefix(w.1, raw + chunk);
        var rest := ReadLine(w.1, raw + chunk).1;
        var n := |w.1.stream| - |rest.stream|;
        assert ReadLine(p, raw) == ReadLine(w.1, raw + chunk);
        Split(p.stream, |chunk|, n);
        Associative(raw, chunk, w.1.stream[..n]);
      }
    }
  }

  /** A read fails in exactly three ways, all of them SocketErrors; "Unexpected
      end of data" means the peer closed and everything it sent was read. */
  lemma {:induction false} ReadLineErrors(p: Peer, raw: Bytes)
    ensures var (r, rest) := ReadLine(p, raw);
            && (r.Err? ==> r.error in {SocketError("Failed waiting for data"),
                                       SocketError("Could not read from client"),
                                       SocketError("Unexpected end of data")})
            && (r == Err(SocketError("Unexpected end of data")) ==> rest.stream == [])
    decreases |p.events|
  {
    if !EndsWithNewline(raw) {
      var w := Wait(p, RecvSize);
      if w.0.Data? && |w.0.bytes| > 0 {
        ReadLineErrors(w.1, raw + w.0.bytes);
      }
    }
  }

  /** A newline inside a chunk does not end a read: a chunk holding a newline
      followed by more bytes leaves the buffer not ending in a newline, and
      when nothing more arrives the read times out. */
  lemma InteriorNewlineDoesNotEndRead(a: Bytes, b: Bytes, limit: pos)
    requires b != [] && b[|b| - 1] != NL
    requires |a| + 1 + |b| <= RecvSize && |a| + 1 + |b| <= limit
    ensures NL in a + [NL] + b
    ensures ReadLine(Peer(a + [NL] + b, [Ready(limit)]), []).0 == Err(SocketError("Failed waiting for data"))
  {
    var s := a + [NL] + b;
    assert s[..|s|] == s;
    assert s[|a|] == NL;
    var w := Wait(Peer(s, [Ready(limit)]), RecvSize);
    assert w.0 == Data(s);
    assert w.1.events == [];
    assert ReadLine(w.1, [] + s) == (Err(SocketError("Failed waiting for data")), w.1);
  }

  /** Every arrangement of chunks delivers one whole message: when the peer
      sends `body` and a newline (with no newline inside `body`) and enough
      chunks arrive, the read returns exactly that message and leaves
      nothing unread. */
  lemma {:induction false} ReadLineWholeMessage(body: Bytes, raw: Bytes, s: Bytes, es: seq<Event>)
    requires NL !in body
    requires raw + s == body + [NL]
    requires s != []
    requires forall i :: 0 <= i < |es| ==> es[i].Ready?
    requires |es| >= |s|
    ensures ReadLine(Peer(s, es), raw).0 == Ok(body + [NL])
    ensures ReadLine(Peer(s, es), raw).1.stream == []
    decreases |es|
  {
    var p := Peer(s, es);
    assert |raw| < |body| + 1;
    if |raw| > 0 {
      assert raw[|raw| - 1] == (raw + s)[|raw| - 1] == body[|raw| - 1];
    }
    var w := Wait(p, RecvSize);
    var chunk := w.0.bytes;
    assert |chunk| > 0;
    var raw' := raw + chunk;
    assert raw' + w.1.stream == body + [NL] by {
      assert s == chunk + s[|chunk|..];
    }
    if w.1.stream == [] {
      assert raw' == body + [NL];
    } else {
      ReadLineWholeMessage(body, raw', w.1.stream, w.1.events);
    }
  }

  /** What `write` sends, `read` at the other end returns: for a codec that
      behaves as `json` does on `x`, a peer that sent `Framed(codec, x)` in any
      chunking is read back as `x`, leaving nothing unread. */
  lemma WriteThenRead(codec: Codec, x: Json, es: seq<Event>)
    requires Faithful(codec, x)
    requires forall i :: 0 <= i < |es| ==> es[i].Ready?
    requires |es| >= |Framed(codec, x)|
    ensures DecodeFrame(codec, ReadLine(Peer(Framed(codec, x), es), []).0) == Ok(x)
    ensures ReadLine(Peer(Framed(codec, x), es), []).1.stream == []
  {
    ReadLineWholeMessage(codec.encode(x), [], Framed(codec, x), es);
  }
}
