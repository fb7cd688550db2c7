/** regent/backend/server.py: the older backend server. A request is a
    4-byte big-endian length followed by that many bytes of JSON; the reply
    is unframed JSON text.

    The file as written cannot serve any request (see `ReadExactAsWritten`
    and `CheckSecretAsWritten`); the server modelled here is the evidently
    intended one, with each defect modelled beside it as written. Operation
    lifecycle steps it shares with the service (`op_new`, `op_existing`)
    reuse the service's definitions. */
module Backend {
  import opened Values
  import opened Operation
  import Serialiser
  import opened Storage
  import opened Transport
  import Service

  /** Lengths are unsigned 32-bit numbers. */
  const LengthLimit: nat := 0x1_0000_0000

  function Pack(n: nat): (raw: Bytes)
    requires n < LengthLimit
    ensures |raw| == 4
  {
    [n / 0x100_0000, (n / 0x1_0000) % 256, (n / 256) % 256, n % 256]
  }

  /** `struct.unpack('>I', raw)[0]`. */
  function Unpack(raw: Bytes): (r: Result<nat>)
    ensures r.Ok? <==> |raw| == 4
    ensures r.Ok? ==> r.value < LengthLimit
  {
    if |raw| == 4 then
      var b0: nat, b1: nat, b2: nat, b3: nat := raw[0], raw[1], raw[2], raw[3];
      var n: nat := ((b0 * 256 + b1) * 256 + b2) * 256 + b3;
      Ok(n)
    else Err(Raised("struct.error", "unpack requires a string argument of length 4"))
  }

  /** Every length a 4-byte header can hold reads back. */
  lemma LengthRoundTrip(n: nat)
    requires n < LengthLimit
    ensures Unpack(Pack(n)) == Ok(n)
  {
    var q1, q2, q3 := n / 256, n / 0x1_0000, n / 0x100_0000;
    assert q2 == q1 / 256 && q3 == q2 / 256;
    assert n == q1 * 256 + n % 256;
    assert q1 == q2 * 256 + q1 % 256;
    assert q2 == q3 * 256 + q2 % 256;
    assert q3 < 256;
    var raw := Pack(n);
    assert raw == [q3, q2 % 256, q1 % 256, n % 256];
  }

  /** Every 4-byte header is the encoding of the length it reads as. */
  lemma HeaderRoundTrip(raw: Bytes)
    requires |raw| == 4
    ensures Pack(Unpack(raw).value) == raw
  {
    var n := Unpack(raw).value;
    var b0: nat, b1: nat, b2: nat, b3: nat := raw[0], raw[1], raw[2], raw[3];
    var mid := b0 * 256 + b1;
    var hi := mid * 256 + b2;
    assert n == hi * 256 + b3;
    Digit(hi, b3);
    Digit(mid, b2);
    Digit(b0, b1);
    assert n == mid * 0x1_0000 + (b2 * 256 + b3);
    assert n / 0x1_0000 == mid;
    assert n == b0 * 0x100_0000 + (b1 * 0x1_0000 + b2 * 256 + b3);
    assert n / 0x100_0000 == b0;
  }

  /** The last base-256 digit of `q * 256 + b`, and what is left. */
  lemma Digit(q: nat, b: nat)
    requires b < 256
    ensures (q * 256 + b) % 256 == b && (q * 256 + b) / 256 == q
  {
  }

  // ---------------------------------------------------------------------
  // Reading an exact number of bytes
  // ---------------------------------------------------------------------

  /** The loop of `Server.read`, as evidently intended: until `n` bytes are
      in, wait and receive at most the bytes still missing. A socket.error
      from `recv` is not caught. */
  function ReadExact(p: Peer, n: nat, msg: Bytes): (r: (Result<Bytes>, Peer))
    ensures r.0.Ok? ==> n <= |r.0.value| && |msg| <= |r.0.value| && r.0.value[..|msg|] == msg
    decreases |p.events|
  {
    if |msg| >= n then (Ok(msg), p)
    else
      var w := Wait(p, n - |msg|);
      match w.0
      case TimedOut => (Err(ProcessError("Failed waiting for data")), w.1)
      case Failed(why) => (Err(Raised("socket.error", why)), w.1)
      case Data(packet) =>
        if packet == [] then (Err(ProcessError("Unexpected end of data")), w.1)
        else ReadExact(w.1, n, msg + packet)
  }

  /** The error `Server.read` raises as written: it names
      `settings.SOCKET_TIMEOUT`, and `settings` is never imported. */
  const SettingsMissing: Error := NameError("global name 'settings' is not defined")

  /** `Server.read` as written: the first wait already fails, so only a read
      of nothing succeeds. */
  function ReadExactAsWritten(p: Peer, n: nat, msg: Bytes): (r: (Result<Bytes>, Peer))
    ensures |msg| < n ==> r == (Err(SettingsMissing), p)
    ensures |msg| >= n ==> r == (Ok(msg), p)
  {
    if |msg| >= n then (Ok(msg), p) else (Err(SettingsMissing), p)
  }

  /** A read returns exactly the `n` bytes at the front of the stream and
      leaves the rest unread: no `recv` ever asks for more than is missing. */
  lemma {:induction false} ReadExactTakesExactly(p: Peer, n: nat, msg: Bytes)
    requires |msg| <= n
    ensures var (r, rest) := ReadExact(p, n, msg);
            r.Ok? ==> && n - |msg| <= |p.stream|
                      && r.value == msg + p.stream[..n - |msg|]
                      && rest.stream == p.stream[n - |msg|..]
    decreases |p.events|
  {
    if |msg| < n {
      var w := Wait(p, n - |msg|);
      if w.0.Data? && w.0.bytes != [] {
        var packet := w.0.bytes;
        ReadExactTakesExactly(w.1, n, msg + packet);
        if ReadExact(w.1, n, msg + packet).0.Ok? {
          var m := n - |msg| - |packet|;
          assert ReadExact(p, n, msg) == ReadExact(w.1, n, msg + packet);
          Split(p.stream, |packet|, m);
          Associative(msg, packet, p.stream[|packet|..|packet| + m]);
        }
      }
    }
  }


  /** A read leaves some suffix of the stream unread, whatever happens. */
  lemma {:induction false} ReadExactLeavesSuffix(p: Peer, n: nat, msg: Bytes)
    ensures var rest := ReadExact(p, n, msg).1;
            |rest.stream| <= |p.stream| && rest.stream == p.stream[|p.stream| - |rest.stream|..]
    decreases |p.events|
  {
    if |msg| < n {
      var w := Wait(p, n - |msg|);
      if w.0.Data? && w.0.bytes != [] {
        ReadExactLeavesSuffix(w.1, n, msg + w.0.bytes);
        var rest := ReadExact(w.1, n, msg + w.0.bytes).1;
        assert w.1.stream == p.stream[|w.0.bytes|..];
        assert w.1.stream[|w.1.stream| - |rest.stream|..] == p.stream[|p.stream| - |rest.stream|..];
      }
    }
  }

  /** The only errors a read raises: the two it raises itself and the
      socket.error `recv` may raise. */
  lemma {:induction false} ReadExactErrors(p: Peer, n: nat, msg: Bytes)
    ensures var r := ReadExact(p, n, msg).0;
            r.Err? ==> r.error in {ProcessError("Failed waiting for data"), ProcessError("Unexpected end of data")}
                       || r.error.Raised?
    decreases |p.events|
  {
    if |msg| < n {
      var w := Wait(p, n - |msg|);
      if w.0.Data? && w.0.bytes != [] {
        ReadExactErrors(w.1, n, msg + w.0.bytes);
      }
    }
  }

  /** When the peer has sent at least `n` bytes and every wait succeeds, the
      read completes, whatever sizes the chunks come in. */
  lemma {:induction false} ReadExactCompletes(p: Peer, n: nat, msg: Bytes)
    requires |msg| <= n && |p.stream| >= n - |msg|
    requires forall i :: 0 <= i < |p.events| ==> p.events[i].Ready?
    requires |p.events| >= n - |msg|
    ensures ReadExact(p, n, msg).0.Ok?
    decreases |p.events|
  {
    if |msg| < n {
      var w := Wait(p, n - |msg|);
      assert w.0.Data? && w.0.bytes != [];
      ReadExactCompletes(w.1, n, msg + w.0.bytes);
    }
  }

  /** The header read never returns an empty string, so the "Invalid message
      length" branch cannot be taken. */
  lemma HeaderNeverEmpty(p: Peer)
    ensures ReadExact(p, 4, []).0.Ok? ==> |ReadExact(p, 4, []).0.value| == 4
  {
    ReadExactTakesExactly(p, 4, []);
  }

  // ---------------------------------------------------------------------
  // The secret check
  // ---------------------------------------------------------------------

  /** What `time.sleep(1)` raises: `time` is never imported. */
  const TimeMissing: Error := NameError("global name 'time' is not defined")

  /** The secret check as written: it tests for a `secret` key but compares
      the value under `socket`, and where it means to refuse it calls
      `time.sleep`, which raises a NameError first. */
  function CheckSecretAsWritten(request: Json, secret: string): (r: Result<map<string, Json>>)
    ensures r.Ok? <==> request.JDict? && "secret" in request.fields && "socket" in request.fields
                       && request.fields["socket"] == JStr(secret)
    ensures r.Ok? ==> r.value == request.fields
    ensures request.JDict? && "secret" !in request.fields ==> r == Err(TimeMissing)
    ensures request.JDict? && "secret" in request.fields && "socket" !in request.fields ==> r == Err(KeyError("socket"))
    ensures (request.JDict? && "secret" in request.fields && "socket" in request.fields
             && request.fields["socket"] != JStr(secret)) ==> r == Err(TimeMissing)
    ensures request.JNull? || request.JBool? || request.JInt? ==> r.Err? && r.error.TypeError?
    ensures r != Err(ProcessError("Permission denied"))
  {
    match Contains(request, "secret")
    case Err(e) => Err(e)
    case Ok(present) =>
      if !present then Err(TimeMissing)
      else
        match GetItem(request, "socket")
        case Err(e) => Err(e)
        case Ok(given) => if given != JStr(secret) then Err(TimeMissing) else Ok(request.fields)
  }

  /** As written, a request with any `secret` at all passes when its
      `socket` key holds the secret, and a request with no secret gets a
      NameError instead of "Permission denied". The corrected check (the
      service's) refuses both. */
  lemma SecretCheckAsWrittenIsWrong(secret: string)
    ensures var wrong := JDict(map["secret" := JStr(secret + "x"), "socket" := JStr(secret)]);
            CheckSecretAsWritten(wrong, secret).Ok?
            && Service.CheckSecret(wrong, secret) == Err(ProcessError("Permission denied"))
    ensures CheckSecretAsWritten(JDict(map[]), secret) == Err(TimeMissing)
            && Service.CheckSecret(JDict(map[]), secret) == Err(ProcessError("Permission denied"))
  {
    var wrong := JDict(map["secret" := JStr(secret + "x"), "socket" := JStr(secret)]);
    assert |secret + "x"| != |secret|;
    assert wrong.fields["secret"] != JStr(secret);
  }

  // ---------------------------------------------------------------------
  // Processing a request
  // ---------------------------------------------------------------------

  /** The result of one request: the message for the client or the
      exception, the store afterwards and the calls made. */
  datatype Outcome = Outcome(reply: Result<Json>, store: Store, calls: seq<Call>)

  /** `process_request` up to the verdict: `'id' in data` resumes the
      operation stored under `data['id']` (the operation name is not looked
      at); otherwise a new operation is prepared with `data['data']`. */
  function Start(modules: Modules, cls: OpClass, store: Store, clock: Service.Clock, data: Json): (s: Service.Started)
    ensures s.calls in {[], [Prepare], [Prepare, Auth], [Load], [Load, AuthProcess], [Load, AuthProcess, AuthResponse]}
    ensures s.calls == [] || s.calls[0] == Prepare ==> s.store == store
    ensures s.result.Ok? ==> s.calls == [Prepare, Auth] || s.calls == [Load, AuthProcess, AuthResponse]
    ensures !data.JDict? ==> s.result.Err? && s.calls == [] && s.store == store
    ensures data.JDict? && "id" in data.fields ==> |s.calls| >= 1 && s.calls[0] == Load
    ensures s.calls != [] && s.calls[0] == Load ==>
              data.JDict? && "id" in data.fields && s.store == store - {data.fields["id"]}
    ensures data.JDict? && "id" in data.fields && data.fields["id"] !in store ==>
              s == Service.Started(Err(ProcessError("")), store, [Load])
    ensures data.JDict? && "id" !in data.fields && "data" !in data.fields ==>
              s == Service.Started(Err(KeyError("data")), store, [])
    ensures data.JDict? && "id" !in data.fields && "data" in data.fields ==>
              (s.result, s.calls) == Service.OpNew(cls, data.fields["data"], clock) && s.store == store
  {
    match Contains(data, "id")
    case Err(e) => Service.Started(Err(e), store, [])
    case Ok(resume) =>
      if resume then
        match GetItem(data, "id")
        case Err(e) => Service.Started(Err(e), store, [])
        case Ok(id) =>
          var loaded := if id in store then Ok(store[id]) else Err(DoesNotExist(""));
          var rest := if id in store then store - {id} else store;
          var resumed := Service.Resume(modules, loaded, data, clock);
          Service.Started(resumed.0, rest, resumed.1)
      else
        match GetItem(data, "data")
        case Err(e) => Service.Started(Err(e), store, [])
        case Ok(d) =>
          var started := Service.OpNew(cls, d, clock);
          Service.Started(started.0, store, started.1)
  }

  /** The rest of `process_request`: False refuses; an Auth instance sends
      its request and saves the operation under `op.id`, replying with the
      request's message; anything else performs the operation and replies
      with `op.complete_msg`. */
  function Conclude(modules: Modules, op: Op, verdict: Verdict): (r: (Service.Decision, seq<Call>))
    ensures verdict.Denied? ==> r == (Service.Fail(ProcessError("Authorisation failed")), [])
    ensures r.1 in {[], [Perform], [AuthRequest], [AuthRequest, Save]}
    ensures r.0.Suspend? <==> r.1 == [AuthRequest, Save]
    ensures Perform in r.1 <==> verdict.Approved? || verdict.Other?
    ensures r.0.Done? ==> op.cls.perform(op.attrs).Ok?
                          && Ok(r.0.data) == GetAttr(op.cls.name, op.attrs, op.cls.classAttrs, "complete_msg")
    ensures r.0.Suspend? ==> Ok(r.0.uid) == GetAttr(op.cls.name, op.attrs, op.cls.classAttrs, "id")
    ensures r.0.Suspend? ==>
              && verdict.Pending?
              && verdict.auth.cls.request(verdict.auth.attrs, op.attrs).Ok?
              && r.0.response == verdict.auth.cls.request(verdict.auth.attrs, op.attrs).value.0
              && r.0.rec.op == Serialiser.Frozen(op.cls.moduleName, op.cls.name, Serialiser.PublicAttrs(op.attrs))
              && r.0.rec.auth == Serialiser.Frozen(verdict.auth.cls.moduleName, verdict.auth.cls.name,
                                                   Serialiser.PublicAttrs(verdict.auth.cls.request(verdict.auth.attrs, op.attrs).value.1))
  {
    match verdict
    case Denied => (Service.Fail(ProcessError("Authorisation failed")), [])
    case Approved => Completed(op)
    case Other => Completed(op)
    case Pending(auth) =>
      match auth.cls.request(auth.attrs, op.attrs)
      case Err(e) => (Service.Fail(e), [AuthRequest])
      case Ok(sent) =>
        var (msg, authAttrs) := sent;
        match Serialiser.Serialise(modules, op.cls.moduleName, op.cls.name, op.attrs)
        case Err(e) => (Service.Fail(e), [AuthRequest])
        case Ok(frozenOp) =>
          match Serialiser.Serialise(modules, auth.cls.moduleName, auth.cls.name, authAttrs)
          case Err(e) => (Service.Fail(e), [AuthRequest])
          case Ok(frozenAuth) =>
            match GetAttr(op.cls.name, op.attrs, op.cls.classAttrs, "id")
            case Err(e) => (Service.Fail(e), [AuthRequest])
            case Ok(id) => (Service.Suspend(id, Record(frozenOp, frozenAuth), msg), [AuthRequest, Save])
  }

  /** `op.perform()`, then `op.complete_msg`. */
  function Completed(op: Op): (r: (Service.Decision, seq<Call>))
    ensures r.1 == [Perform]
    ensures r.0.Done? <==> op.cls.perform(op.attrs).Ok? && GetAttr(op.cls.name, op.attrs, op.cls.classAttrs, "complete_msg").Ok?
    ensures r.0.Done? ==> Ok(r.0.data) == GetAttr(op.cls.name, op.attrs, op.cls.classAttrs, "complete_msg")
    ensures op.cls.perform(op.attrs).Err? ==> r.0 == Service.Fail(op.cls.perform(op.attrs).error)
  {
    match op.cls.perform(op.attrs)
    case Err(e) => (Service.Fail(e), [Perform])
    case Ok(_) =>
      match GetAttr(op.cls.name, op.attrs, op.cls.classAttrs, "complete_msg")
      case Err(e) => (Service.Fail(e), [Perform])
      case Ok(msg) => (Service.Done(msg), [Perform])
  }

  function Finish(store: Store, d: Service.Decision, calls: seq<Call>): (o: Outcome)
    ensures o.calls == calls
    ensures d.Suspend? ==> o.reply == Ok(d.response) && o.store == store[d.uid := d.rec]
    ensures !d.Suspend? ==> o.store == store
  {
    match d
    case Fail(e) => Outcome(Err(e), store, calls)
    case Suspend(id, rec, msg) => Outcome(Ok(msg), store[id := rec], calls)
    case Done(msg) => Outcome(Ok(msg), store, calls)
  }

  /** The checks of `process_connection` after decoding: the secret, then a
      registered `op`. */
  function Route(ops: map<string, OpClass>, secret: string, request: Json): (r: Result<(OpClass, Json)>)
    ensures r.Ok? ==> request.JDict? && "secret" in request.fields && request.fields["secret"] == JStr(secret)
    ensures r.Ok? ==> "op" in request.fields && request.fields["op"].JStr? && request.fields["op"].s in ops
    ensures r.Ok? ==> r.value.1 == Get(request.fields, "data")
    ensures Service.CheckSecret(request, secret).Err? ==> r.Err? && r.error == Service.CheckSecret(request, secret).error
    ensures Service.CheckSecret(request, secret).Ok? && "op" !in request.fields
            ==> r == Err(ProcessError("Invalid message: operation not found"))
    ensures Service.CheckSecret(request, secret).Ok? && "op" in request.fields
            && request.fields["op"].JStr? && request.fields["op"].s !in ops
            ==> r == Err(ProcessError("Unknown operation"))
  {
    match Service.CheckSecret(request, secret)
    case Err(e) => Err(e)
    case Ok(fields) =>
      if "op" !in fields then Err(ProcessError("Invalid message: operation not found"))
      else
        match LookupOp(ops, fields["op"])
        case Err(e) => Err(e)
        case Ok(cls) => Ok((cls, Get(fields, "data")))
  }

  /** `process_connection` after the message has been decoded. */
  function Handle(ops: map<string, OpClass>, modules: Modules, secret: string, store: Store,
                  clock: Service.Clock, request: Json): (o: Outcome)
    ensures Route(ops, secret, request).Err? ==> o == Outcome(Err(Route(ops, secret, request).error), store, [])
    ensures o.calls == [] ==> o.reply.Err? && o.store == store
  {
    match Route(ops, secret, request)
    case Err(e) => Outcome(Err(e), store, [])
    case Ok(routed) => RequestOutcome(modules, store, clock, routed.0, routed.1)
  }

  /** `process_request`. */
  function RequestOutcome(modules: Modules, store: Store, clock: Service.Clock, cls: OpClass, data: Json): (o: Outcome)
    ensures Save !in o.calls ==> o.store == Start(modules, cls, store, clock, data).store
    ensures o.calls == [] ==> o.reply.Err?
    ensures o.calls == [] ==> o.store == store
  {
    var s := Start(modules, cls, store, clock, data);
    assert s.calls == [] ==> s.result.Err? && s.store == store;
    AfterStart(modules, s)
  }

  /** `process_request` once the operation has been prepared or resumed. */
  function AfterStart(modules: Modules, s: Service.Started): (o: Outcome)
    ensures |s.calls| <= |o.calls| && o.calls[..|s.calls|] == s.calls
    ensures Save !in o.calls ==> o.store == s.store
    ensures Perform !in s.calls && Save !in s.calls && Perform in o.calls ==> Save !in o.calls
    ensures s.result.Err? ==> o == Outcome(Err(s.result.error), s.store, s.calls)
  {
    match s.result
    case Err(e) => Outcome(Err(e), s.store, s.calls)
    case Ok(ov) =>
      var c := Conclude(modules, ov.0, ov.1);
      Finish(s.store, c.0, s.calls + c.1)
  }

  /** Decoding the body once it has been read. */
  function DecodeBody(codec: Codec, body: (Result<Bytes>, Peer)): (r: (Result<Json>, Peer))
    ensures r.1 == body.1
    ensures r.0.Ok? <==> body.0.Ok? && codec.decode(body.0.value).Parsed?
    ensures body.0.Err? ==> r.0 == Err(body.0.error)
    ensures body.0.Ok? && codec.decode(body.0.value).Malformed? ==>
              r.0 == Err(ProcessError("Invalid message: could not decode JSON"))
    ensures body.0.Ok? && codec.decode(body.0.value).Parsed? ==> r.0 == Ok(codec.decode(body.0.value).value)
  {
    match body.0
    case Err(e) => (Err(e), body.1)
    case Ok(encoded) =>
      match codec.decode(encoded)
      case Malformed(_) => (Err(ProcessError("Invalid message: could not decode JSON")), body.1)
      case Parsed(request) => (Ok(request), body.1)
  }

  /** Without the secret nothing is prepared, loaded, performed or stored. */
  lemma NothingWithoutSecret(ops: map<string, OpClass>, modules: Modules, secret: string, store: Store,
                             clock: Service.Clock, request: Json)
    requires !(request.JDict? && "secret" in request.fields && request.fields["secret"] == JStr(secret))
    ensures var o := Handle(ops, modules, secret, store, clock, request);
            o.store == store && o.calls == [] && o.reply.Err?
            && (request.JDict? ==> o.reply.error == ProcessError("Permission denied"))
  {
  }

  /** The facts that route a request to a new operation of class `cls`
      prepared with `d`. */
  ghost predicate NewRequest(ops: map<string, OpClass>, secret: string, request: Json, cls: OpClass, d: Json)
  {
    Route(ops, secret, request).Ok? && Route(ops, secret, request).value.0 == cls
    && Route(ops, secret, request).value.1.JDict?
    && "id" !in Route(ops, secret, request).value.1.fields
    && Get(Route(ops, secret, request).value.1.fields, "data") == d
    && "data" in Route(ops, secret, request).value.1.fields
  }

  /** An approved new operation is performed once, and the reply is its
      `complete_msg`; nothing is stored. */
  lemma PerformedReplies(ops: map<string, OpClass>, modules: Modules, secret: string, store: Store,
                         clock: Service.Clock, request: Json, cls: OpClass, d: Json, attrs: Attrs, msg: Json)
    requires NewRequest(ops, secret, request, cls, d)
    requires cls.prepare(InitAttrs(clock.ts, clock.rnd), d) == Ok(attrs)
    requires cls.auth(attrs) == Ok(Approved) && cls.perform(attrs).Ok?
    requires GetAttr(cls.name, attrs, cls.classAttrs, "complete_msg") == Ok(msg)
    ensures Handle(ops, modules, secret, store, clock, request) == Outcome(Ok(msg), store, [Prepare, Auth, Perform])
  {
    var data := Route(ops, secret, request).value.1;
    assert Service.OpNew(cls, d, clock) == (Ok((Op(cls, attrs), Approved)), [Prepare, Auth]);
    assert Start(modules, cls, store, clock, data) == Service.Started(Ok((Op(cls, attrs), Approved)), store, [Prepare, Auth]);
  }

  /** A pending new operation is saved under its `id` attribute, and the
      reply is the auth request's message; nothing is performed. */
  lemma SuspendedUnderId(ops: map<string, OpClass>, modules: Modules, secret: string, store: Store,
                         clock: Service.Clock, request: Json, cls: OpClass, d: Json, attrs: Attrs,
                         auth: AuthObj, msg: Json, sentAttrs: Attrs, id: Json)
    requires NewRequest(ops, secret, request, cls, d)
    requires cls.prepare(InitAttrs(clock.ts, clock.rnd), d) == Ok(attrs)
    requires cls.auth(attrs) == Ok(Pending(auth)) && auth.cls.request(auth.attrs, attrs) == Ok((msg, sentAttrs))
    requires cls.moduleName in modules && cls.name in modules[cls.moduleName]
    requires auth.cls.moduleName in modules && auth.cls.name in modules[auth.cls.moduleName]
    requires GetAttr(cls.name, attrs, cls.classAttrs, "id") == Ok(id)
    ensures var o := Handle(ops, modules, secret, store, clock, request);
            && o.reply == Ok(msg) && o.calls == [Prepare, Auth, AuthRequest, Save]
            && id in o.store && o.store == store[id := o.store[id]]
            && o.store[id].op == Serialiser.Frozen(cls.moduleName, cls.name, Serialiser.PublicAttrs(attrs))
  {
    var data := Route(ops, secret, request).value.1;
    assert Service.OpNew(cls, d, clock) == (Ok((Op(cls, attrs), Pending(auth))), [Prepare, Auth]);
    assert Start(modules, cls, store, clock, data) == Service.Started(Ok((Op(cls, attrs), Pending(auth))), store, [Prepare, Auth]);
    var c := Conclude(modules, Op(cls, attrs), Pending(auth));
    assert c.0.Suspend? && c.0.uid == id;
  }

  /** The message read off a connection: a length header, then that many
      bytes of JSON. */
  function ReadRequest(codec: Codec, p: Peer): (r: (Result<Json>, Peer))
    ensures ReadExact(p, 4, []).0.Err? ==> r == (Err(ReadExact(p, 4, []).0.error), ReadExact(p, 4, []).1)
    ensures r.0 != Err(ProcessError("Invalid message length"))
  {
    ReadExactErrors(p, 4, []);
    var header := ReadExact(p, 4, []);
    match header.0
    case Err(e) => (Err(e), header.1)
    case Ok(raw) =>
      if raw == [] then (Err(ProcessError("Invalid message length")), header.1)
      else
        match Unpack(raw)
        case Err(e) => (Err(e), header.1)
        case Ok(n) =>
          ReadExactErrors(header.1, n, []);
          DecodeBody(codec, ReadExact(header.1, n, []))
  }

  /** When the next `n` bytes of the stream are `data` and every wait
      succeeds, reading `n` bytes returns `data` and leaves the rest. */
  lemma ReadExactFramed(p: Peer, data: Bytes, rest: Bytes)
    requires p.stream == data + rest
    requires forall i :: 0 <= i < |p.events| ==> p.events[i].Ready?
    requires |p.events| >= |data|
    ensures ReadExact(p, |data|, []).0 == Ok(data)
    ensures ReadExact(p, |data|, []).1.stream == rest
    ensures |ReadExact(p, |data|, []).1.events| >= |p.events| - |data|
    ensures forall i :: 0 <= i < |ReadExact(p, |data|, []).1.events| ==> ReadExact(p, |data|, []).1.events[i].Ready?
  {
    ReadExactCompletes(p, |data|, []);
    ReadExactTakesExactly(p, |data|, []);
    assert p.stream[..|data|] == data && p.stream[|data|..] == rest;
    assert [] + data == data;
    ReadEventsLeft(p, |data|, []);
    ReadyLeft(p.events, ReadExact(p, |data|, []).1.events);
  }

  /** Every suffix of a sequence of Ready events is Ready events. */
  lemma ReadyLeft(es: seq<Event>, tail: seq<Event>)
    requires forall i :: 0 <= i < |es| ==> es[i].Ready?
    requires |tail| <= |es| && tail == es[|es| - |tail|..]
    ensures forall i :: 0 <= i < |tail| ==> tail[i].Ready?
  {
    forall i | 0 <= i < |tail|
      ensures tail[i].Ready?
    {
      assert tail[i] == es[|es| - |tail| + i];
    }
  }

  /** A client that sends the header for its message and then the message
      gets it read whole, and nothing more is read. */
  lemma ReceiveFramed(codec: Codec, body: Bytes, rest: Bytes, es: seq<Event>)
    requires |body| < LengthLimit
    requires forall i :: 0 <= i < |es| ==> es[i].Ready?
    requires |es| >= 4 + |body|
    ensures var r := ReadRequest(codec, Peer(Pack(|body|) + body + rest, es));
            && r.1.stream == rest
            && (codec.decode(body).Parsed? ==> r.0 == Ok(codec.decode(body).value))
            && (codec.decode(body).Malformed? ==> r.0 == Err(ProcessError("Invalid message: could not decode JSON")))
  {
    var p := Peer(Pack(|body|) + body + rest, es);
    ReadExactFramed(p, Pack(|body|), body + rest);
    var header := ReadExact(p, 4, []);
    LengthRoundTrip(|body|);
    ReadExactFramed(header.1, body, rest);
    var b := ReadExact(header.1, |body|, []);
    assert ReadRequest(codec, p) == DecodeBody(codec, b);
  }

  /** A read uses up at most one event per byte, and keeps the rest in order. */
  lemma {:induction false} ReadEventsLeft(p: Peer, n: nat, msg: Bytes)
    requires |msg| <= n
    ensures var rest := ReadExact(p, n, msg).1;
            |rest.events| <= |p.events| && rest.events == p.events[|p.events| - |rest.events|..]
            && (ReadExact(p, n, msg).0.Ok? ==> |p.events| - |rest.events| <= n - |msg|)
    decreases |p.events|
  {
    if |msg| < n {
      var w := Wait(p, n - |msg|);
      if w.0.Data? && w.0.bytes != [] {
        ReadEventsLeft(w.1, n, msg + w.0.bytes);
        var rest := ReadExact(w.1, n, msg + w.0.bytes).1;
        assert w.1.events == p.events[1..];
        assert p.events[1..][|w.1.events| - |rest.events|..] == p.events[|p.events| - |rest.events|..];
      }
    }
  }

  /** The message `run` sends: `{'success': msg}` or `{'error': str(e)}`. */
  function RunReply(reply: Result<Json>): (m: map<string, Json>)
    ensures reply.Ok? ==> m == map["success" := reply.value]
    ensures reply.Err? ==> m == map["error" := JStr(Text(reply.error))]
  {
    match reply
    case Ok(msg) => map["success" := msg]
    case Err(e) => map["error" := JStr(Text(e))]
  }

  /** One connection as `run` serves it: the reply is JSON text with no
      length header and no newline; when sending fails nothing arrives, and
      a failing close is ignored. */
  function Serve(ops: map<string, OpClass>, modules: Modules, secret: string, codec: Codec,
                 store: Store, clock: Service.Clock, incoming: Incoming): (sv: Service.Served)
    ensures sv.closed == !incoming.closeFails
    ensures incoming.sendFails ==> sv.sent == []
    ensures var received := ReadRequest(codec, incoming.peer);
            && (received.0.Err? ==> sv.store == store && sv.calls == [])
            && (received.0.Ok? ==> var o := Handle(ops, modules, secret, store, clock, received.0.value);
                                   sv.store == o.store && sv.calls == o.calls)
    ensures var received := ReadRequest(codec, incoming.peer);
            && (!incoming.sendFails && received.0.Err? ==>
                  sv.sent == codec.encode(JDict(map["error" := JStr(Text(received.0.error))])))
            && (!incoming.sendFails && received.0.Ok? ==>
                  sv.sent == codec.encode(JDict(RunReply(Handle(ops, modules, secret, store, clock, received.0.value).reply))))
  {
    var received := ReadRequest(codec, incoming.peer);
    var o := match received.0
             case Err(e) => Outcome(Err(e), store, [])
             case Ok(request) => Handle(ops, modules, secret, store, clock, request);
    var sent := if incoming.sendFails then [] else codec.encode(JDict(RunReply(o.reply)));
    Service.Served(sent, !incoming.closeFails, o.store, o.calls)
  }

  /** `run` end to end: a request sent with its length header and read
      whole is handled, and the client is sent `{'success': msg}` or
      `{'error': str(e)}` for that request's outcome; a body that is not
      JSON is answered with the decoding error and changes nothing. */
  lemma ServeFramed(ops: map<string, OpClass>, modules: Modules, secret: string, codec: Codec,
                    store: Store, clock: Service.Clock, body: Bytes, rest: Bytes, es: seq<Event>,
                    sendFails: bool, closeFails: bool)
    requires |body| < LengthLimit
    requires forall i :: 0 <= i < |es| ==> es[i].Ready?
    requires |es| >= 4 + |body|
    ensures var s := Serve(ops, modules, secret, codec, store, clock,
                           Incoming(Peer(Pack(|body|) + body + rest, es), sendFails, closeFails));
            && (codec.decode(body).Parsed? ==>
                  var o := Handle(ops, modules, secret, store, clock, codec.decode(body).value);
                  && s.store == o.store && s.calls == o.calls
                  && (!sendFails ==> s.sent == codec.encode(JDict(RunReply(o.reply)))))
            && (codec.decode(body).Malformed? ==>
                  && s.store == store && s.calls == []
                  && (!sendFails ==>
                        s.sent == codec.encode(JDict(map["error" := JStr("Invalid message: could not decode JSON")]))))
  {
    ReceiveFramed(codec, body, rest, es);
  }

  /** The reading half of `process_connection` as written: `read` is the
      as-written one. */
  function ReadRequestAsWritten(codec: Codec, p: Peer): (r: (Result<Json>, Peer))
  {
    var header := ReadExactAsWritten(p, 4, []);
    match header.0
    case Err(e) => (Err(e), header.1)
    case Ok(raw) =>
      if raw == [] then (Err(ProcessError("Invalid message length")), header.1)
      else
        match Unpack(raw)
        case Err(e) => (Err(e), header.1)
        case Ok(n) =>
          DecodeBody(codec, ReadExactAsWritten(header.1, n, []))
  }

  /** As written, every connection is answered with the NameError from
      `read` and nothing is read off it, even a well-framed message that the
      corrected read takes whole. */
  lemma ReadAsWrittenAlwaysFails(codec: Codec, body: Bytes, x: Json, rest: Bytes, es: seq<Event>)
    requires |body| < LengthLimit && codec.decode(body) == Parsed(x)
    requires forall i :: 0 <= i < |es| ==> es[i].Ready?
    requires |es| >= 4 + |body|
    ensures var p := Peer(Pack(|body|) + body + rest, es);
            && ReadRequestAsWritten(codec, p) == (Err(SettingsMissing), p)
            && ReadRequest(codec, p).0 == Ok(x)
  {
    ReceiveFramed(codec, body, rest, es);
  }

  class Server {
    var operations: map<string, OpClass>
    const modules: Modules
    const secret: string
    const db: Memory
    ghost var calls: seq<Call>

    constructor(secret: string, modules: Modules)
      ensures this.secret == secret && this.modules == modules
      ensures operations == map[] && fresh(db) && db.records == map[] && calls == []
    {
      operations := map[];
      this.secret := secret;
      this.modules := modules;
      db := new Memory();
      calls := [];
    }

    method Register(name: string, operation: OpClass)
      modifies this`operations
      ensures operations == old(operations)[name := operation]
    {
      operations := operations[name := operation];
    }

    /** `read(client, msglen)`. */
    method Read(client: Conn, n: nat) returns (r: Result<Bytes>)
      modifies client`peer
      ensures (r, client.peer) == ReadExact(old(client.peer), n, [])
    {
      var msg: Bytes := [];
      while |msg| < n
        invariant ReadExact(client.peer, n, msg) == ReadExact(old(client.peer), n, [])
        decreases |client.peer.events|
      {
        var got := client.SelectRecv(n - |msg|);
        match got
        case TimedOut =>
          return Err(ProcessError("Failed waiting for data"));
        case Failed(why) =>
          return Err(Raised("socket.error", why));
        case Data(packet) =>
          if packet == [] {
            return Err(ProcessError("Unexpected end of data"));
          }
          msg := msg + packet;
      }
      r := Ok(msg);
    }

    /** The reading half of `process_connection`. */
    method Receive(codec: Codec, client: Conn) returns (r: Result<Json>)
      modifies client`peer
      ensures (r, client.peer) == ReadRequest(codec, old(client.peer))
    {
      var raw := Read(client, 4);
      if raw.Err? {
        return Err(raw.error);
      }
      if raw.value == [] {
        return Err(ProcessError("Invalid message length"));
      }
      var n := Unpack(raw.value);
      if n.Err? {
        return Err(n.error);
      }
      var encoded := Read(client, n.value);
      if encoded.Err? {
        return Err(encoded.error);
      }
      match codec.decode(encoded.value)
      case Malformed(_) =>
        r := Err(ProcessError("Invalid message: could not decode JSON"));
      case Parsed(request) =>
        r := Ok(request);
    }

    /** `process_connection` after decoding, with `process_request`,
        reading and writing the store through `db`. */
    method Process(request: Json, clock: Service.Clock) returns (r: Result<Json>)
      modifies db, this`calls
      ensures var o := Handle(operations, modules, secret, old(db.records), clock, request);
              r == o.reply && db.records == o.store && calls == old(calls) + o.calls
    {
      var routed := Route(operations, secret, request);
      if routed.Err? {
        return Err(routed.error);
      }
      r := ProcessRequest(routed.value.0, clock, routed.value.1);
    }

    /** `process_request`. */
    method ProcessRequest(cls: OpClass, clock: Service.Clock, data: Json) returns (r: Result<Json>)
      modifies db, this`calls
      ensures var o := RequestOutcome(modules, old(db.records), clock, cls, data);
              r == o.reply && db.records == o.store && calls == old(calls) + o.calls
    {
      ghost var s := Start(modules, cls, db.records, clock, data);
      var started := Begin(cls, clock, data);
      if started.Err? {
        return Err(started.error);
      }
      r := Act(s, started.value.0, started.value.1);
      ghost var c := Conclude(modules, started.value.0, started.value.1);
      Associative(old(calls), s.calls, c.1);
    }

    /** `process_request` up to the verdict. */
    method Begin(cls: OpClass, clock: Service.Clock, data: Json) returns (r: Result<(Op, Verdict)>)
      modifies db, this`calls
      ensures var s := Start(modules, cls, old(db.records), clock, data);
              r == s.result && db.records == s.store && calls == old(calls) + s.calls
    {
      var resume := Contains(data, "id");
      if resume.Err? {
        return Err(resume.error);
      }
      if resume.value {
        var id := GetItem(data, "id");
        if id.Err? {
          return Err(id.error);
        }
        var loaded := db.Load(id.value);
        var resumed := Service.Resume(modules, loaded, data, clock);
        calls := calls + resumed.1;
        r := resumed.0;
      } else {
        var d := GetItem(data, "data");
        if d.Err? {
          return Err(d.error);
        }
        var started := Service.OpNew(cls, d.value, clock);
        calls := calls + started.1;
        r := started.0;
      }
    }

    /** The rest of `process_request`. */
    method Act(ghost s: Service.Started, op: Op, verdict: Verdict) returns (r: Result<Json>)
      requires s.result == Ok((op, verdict)) && db.records == s.store
      modifies db, this`calls
      ensures var o := AfterStart(modules, s);
              var c := Conclude(modules, op, verdict);
              r == o.reply && db.records == o.store && o.calls == s.calls + c.1 && calls == old(calls) + c.1
    {
      var concluded := Conclude(modules, op, verdict);
      calls := calls + concluded.1;
      match concluded.0
      case Fail(e) =>
        r := Err(e);
      case Suspend(id, rec, msg) =>
        db.Save(id, rec);
        r := Ok(msg);
      case Done(msg) =>
        r := Ok(msg);
    }

    /** One pass of the `run` loop on an accepted connection. */
    method HandleConnection(codec: Codec, client: Conn, clock: Service.Clock)
      modifies db, this`calls, client
      ensures var s := Serve(operations, modules, secret, codec, old(db.records), clock,
                             Incoming(old(client.peer), client.sendFails, client.closeFails));
              && client.sent == old(client.sent) + s.sent
              && client.closed == (old(client.closed) || s.closed)
              && db.records == s.store
              && calls == old(calls) + s.calls
    {
      var request := Receive(codec, client);
      var reply: Result<Json>;
      if request.Err? {
        reply := Err(request.error);
      } else {
        reply := Process(request.value, clock);
      }
      var sent := client.Send(codec.encode(JDict(RunReply(reply))));
      if reply.Ok? && !sent {
        sent := client.Send(codec.encode(JDict(RunReply(Err(Raised("socket.error", ""))))));
      }
      var closed := client.Close();
    }

    /** Accept a connection and serve it. */
    method AcceptAndServe(codec: Codec, incoming: Incoming, clock: Service.Clock) returns (client: Conn)
      modifies db, this`calls
      ensures fresh(client)
      ensures var s := Serve(operations, modules, secret, codec, old(db.records), clock, incoming);
              client.sent == s.sent && client.closed == s.closed && db.records == s.store
    {
      client := new Conn(incoming);
      HandleConnection(codec, client, clock);
    }

    /** `run`, over a finite sequence of incoming connections. */
    method Run(codec: Codec, queue: seq<(Incoming, Service.Clock)>) returns (clients: seq<Conn>, ghost stores: seq<Store>)
      modifies db, this`calls
      ensures |clients| == |queue| && |stores| == |queue| + 1
      ensures stores[0] == old(db.records) && db.records == stores[|queue|]
      ensures forall i :: 0 <= i < |clients| ==> fresh(clients[i])
      ensures forall i :: 0 <= i < |clients| ==>
                ConnServedAs(clients[i], stores[i + 1], Serve(operations, modules, secret, codec, stores[i], queue[i].1, queue[i].0))
    {
      clients, stores := [], [db.records];
      var k := 0;
      while k < |queue|
        invariant 0 <= k <= |queue| && |clients| == k && |stores| == k + 1
        invariant stores[0] == old(db.records) && db.records == stores[k]
        invariant forall i :: 0 <= i < k ==> fresh(clients[i])
        invariant forall i :: 0 <= i < k ==>
                    ConnServedAs(clients[i], stores[i + 1], Serve(operations, modules, secret, codec, stores[i], queue[i].1, queue[i].0))
      {
        var client := AcceptAndServe(codec, queue[k].0, queue[k].1);
        clients, stores := clients + [client], stores + [db.records];
        k := k + 1;
      }
    }
  }

  /** A connection got what `s` says it is sent, and left the store `s` says. */
  ghost predicate ConnServedAs(client: Conn, next: Store, s: Service.Served)
    reads client
  {
    client.sent == s.sent && client.closed == s.closed && next == s.store
  }
}
