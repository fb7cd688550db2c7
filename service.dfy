/** regent/service/server.py: the service that receives requests on its
    socket and runs operations through their lifecycle.

    `Handle` states what `Service.process` does with one decoded request:
    check the secret, route to a new operation (`op`) or a suspended one
    (`uid`), obtain a verdict, and act on it. It also records, in order, the
    user code and storage calls made (`Call`), so that properties such as
    "perform runs at most once, and only after a verdict that allows it" can
    be stated. The `Service` class holds the registry and the store and is
    proved against these functions. */
module Service {
  import opened Values
  import opened Operation
  import Serialiser
  import opened Storage
  import opened Transport

  /** What `process` returns: `(uid, data)`; the uid is None when the
      operation was performed. */
  datatype Reply = Reply(uid: Json, data: Json)

  /** The result of one request: the reply or the exception, the store
      afterwards, and the calls made. */
  datatype Outcome = Outcome(reply: Result<Reply>, store: Store, calls: seq<Call>)

  /** What `time.time()` and `random.randint` give `Operation.__init__`
      while this request is handled. */
  datatype Clock = Clock(ts: string, rnd: nat)

  /** The attributes a no-argument constructor sets at this time. */
  function Fresh(clock: Clock): PyClass -> Attrs
  {
    c => Construct(c, clock.ts, clock.rnd)
  }

  /** The secret check: the request must have a `secret` equal to the
      service's secret. Only a dict can pass it; a list or string holding
      the word "secret" fails when indexed by a string, and a number, bool or
      None fails the `in` test, with Python's TypeError. */
  function CheckSecret(request: Json, secret: string): (r: Result<map<string, Json>>)
    ensures r.Ok? <==> request.JDict? && "secret" in request.fields && request.fields["secret"] == JStr(secret)
    ensures r.Ok? ==> r.value == request.fields
    ensures r.Err? ==> r.error == ProcessError("Permission denied") || r.error.TypeError?
    ensures request.JDict? && r.Err? ==> r.error == ProcessError("Permission denied")
  {
    match Contains(request, "secret")
    case Err(e) => Err(e)
    case Ok(present) =>
      if !present then Err(ProcessError("Permission denied"))
      else
        match GetItem(request, "secret")
        case Err(e) => Err(e)
        case Ok(given) =>
          if given != JStr(secret) then Err(ProcessError("Permission denied"))
          else Ok(request.fields)
  }

  /** `op_new`: construct the operation, `prepare(data)` it (a ValueError
      becomes "Invalid data: ..."), then ask it for its verdict. */
  function OpNew(cls: OpClass, data: Json, clock: Clock): (r: (Result<(Op, Verdict)>, seq<Call>))
    ensures |r.1| >= 1 && r.1[0] == Prepare
    ensures r.1 == [Prepare] || r.1 == [Prepare, Auth]
    ensures r.0.Ok? ==> r.1 == [Prepare, Auth] && r.0.value.0.cls == cls
    ensures r.1 == [Prepare] <==> cls.prepare(InitAttrs(clock.ts, clock.rnd), data).Err?
    ensures r.1 == [Prepare] ==>
              var e := cls.prepare(InitAttrs(clock.ts, clock.rnd), data).error;
              r.0 == Err(if e.ValueError? then ProcessError("Invalid data: " + Text(e)) else e)
  {
    match cls.prepare(InitAttrs(clock.ts, clock.rnd), data)
    case Err(e) =>
      (Err(if e.ValueError? then ProcessError("Invalid data: " + Text(e)) else e), [Prepare])
    case Ok(attrs) =>
      match cls.auth(attrs)
      case Err(e) => (Err(e), [Prepare, Auth])
      case Ok(v) => (Ok((Op(cls, attrs), v)), [Prepare, Auth])
  }

  function ClassName(c: PyClass): string
  {
    match c
    case OpKind(o) => o.name
    case AuthKind(a) => a.name
  }

  /** `deserialise(*frozen)` inside `op_existing`: a ValueError becomes
      "Could not deserialise operation: ..."; anything else passes through. */
  function Thaw(modules: Modules, frozen: Serialiser.Frozen, clock: Clock): (r: Result<(PyClass, Attrs)>)
    ensures r.Ok? <==> Serialiser.Deserialised(modules, Fresh(clock), frozen).Ok?
    ensures r.Ok? ==> r == Serialiser.Deserialised(modules, Fresh(clock), frozen)
    ensures r.Err? && Serialiser.Deserialised(modules, Fresh(clock), frozen).error.ValueError? ==>
              r.error == ProcessError("Could not deserialise operation: " + Serialiser.Deserialised(modules, Fresh(clock), frozen).error.msg)
    ensures r.Err? && !Serialiser.Deserialised(modules, Fresh(clock), frozen).error.ValueError? ==>
              r.error == Serialiser.Deserialised(modules, Fresh(clock), frozen).error
  {
    match Serialiser.Deserialised(modules, Fresh(clock), frozen)
    case Err(e) =>
      Err(if e.ValueError? then ProcessError("Could not deserialise operation: " + Text(e)) else e)
    case Ok(t) => Ok(t)
  }

  /** `op_existing` after the record has been loaded (or `load` has raised
      DoesNotExist, which becomes a ProcessError with no message): thaw the
      operation and its auth object, let the auth object `process` the new
      data, then ask the operation for its verdict through `auth_response`.
      An object of the wrong kind fails on the missing method. */
  function Resume(modules: Modules, loaded: Result<Record>, data: Json, clock: Clock): (r: (Result<(Op, Verdict)>, seq<Call>))
    ensures |r.1| >= 1 && r.1[0] == Load
    ensures r.1 == [Load] || r.1 == [Load, AuthProcess] || r.1 == [Load, AuthProcess, AuthResponse]
    ensures r.0.Ok? ==> r.1 == [Load, AuthProcess, AuthResponse]
    ensures loaded.Err? ==> r == (Err(ProcessError("")), [Load])
    ensures loaded.Ok? && Thaw(modules, loaded.value.op, clock).Err? ==>
              r == (Err(Thaw(modules, loaded.value.op, clock).error), [Load])
    ensures loaded.Ok? && Thaw(modules, loaded.value.op, clock).Ok? && Thaw(modules, loaded.value.auth, clock).Err? ==>
              r == (Err(Thaw(modules, loaded.value.auth, clock).error), [Load])
    ensures r.1 != [Load] ==>
              && loaded.Ok? && Thaw(modules, loaded.value.op, clock).Ok? && Thaw(modules, loaded.value.auth, clock).Ok?
              && Thaw(modules, loaded.value.auth, clock).value.0.AuthKind?
    ensures loaded.Ok? && Thaw(modules, loaded.value.op, clock).Ok? && Thaw(modules, loaded.value.auth, clock).Ok? ==>
              var thawedOp := Thaw(modules, loaded.value.op, clock).value;
              var thawedAuth := Thaw(modules, loaded.value.auth, clock).value;
              && (!thawedAuth.0.AuthKind? ==> r.1 == [Load] && r.0.Err? && r.0.error.AttributeError?)
              && (thawedAuth.0.AuthKind? ==>
                    var processed := thawedAuth.0.auth.process(thawedAuth.1, thawedOp.1, data);
                    && (processed.Err? ==> r == (Err(processed.error), [Load, AuthProcess]))
                    && (processed.Ok? && !thawedOp.0.OpKind? ==>
                          r.1 == [Load, AuthProcess] && r.0.Err? && r.0.error.AttributeError?)
                    && (processed.Ok? && thawedOp.0.OpKind? ==>
                          var verdict := thawedOp.0.op.authResponse(processed.value.1,
                                                                    AuthObj(thawedAuth.0.auth, processed.value.0));
                          && r.1 == [Load, AuthProcess, AuthResponse]
                          && (verdict.Err? ==> r.0 == Err(verdict.error))
                          && (verdict.Ok? ==> r.0 == Ok((Op(thawedOp.0.op, processed.value.1), verdict.value)))))
  {
    match loaded
    case Err(_) => (Err(ProcessError("")), [Load])
    case Ok(rec) =>
      match Thaw(modules, rec.op, clock)
      case Err(e) => (Err(e), [Load])
      case Ok(thawedOp) =>
        match Thaw(modules, rec.auth, clock)
        case Err(e) => (Err(e), [Load])
        case Ok(thawedAuth) =>
          if !thawedAuth.0.AuthKind? then
            (Err(AttributeError("'" + ClassName(thawedAuth.0) + "' object has no attribute 'process'")), [Load])
          else
            var acls := thawedAuth.0.auth;
            match acls.process(thawedAuth.1, thawedOp.1, data)
            case Err(e) => (Err(e), [Load, AuthProcess])
            case Ok(processed) =>
              var (authAttrs, opAttrs) := processed;
              if !thawedOp.0.OpKind? then
                (Err(AttributeError("'" + ClassName(thawedOp.0) + "' object has no attribute 'auth_response'")),
                 [Load, AuthProcess])
              else
                var op := Op(thawedOp.0.op, opAttrs);
                match op.cls.authResponse(opAttrs, AuthObj(acls, authAttrs))
                case Err(e) => (Err(e), [Load, AuthProcess, AuthResponse])
                case Ok(v) => (Ok((op, v)), [Load, AuthProcess, AuthResponse])
  }

  /** What acting on a verdict amounts to. */
  datatype Decision =
    | Fail(error: Error)
    | Suspend(uid: Json, rec: Record, response: Json)
    | Done(data: Json)

  /** Act on a verdict: exactly False is a refusal; an `Auth` instance sends
      its request and suspends the operation under its uid; anything else
      (True, None, any other value) performs the operation. */
  function Conclude(modules: Modules, op: Op, verdict: Verdict): (r: (Decision, seq<Call>))
    ensures verdict.Denied? ==> r == (Fail(ProcessError("Authorisation failed")), [])
    ensures verdict.Pending? ==> r.1 == [AuthRequest] || r.1 == [AuthRequest, Save]
    ensures verdict.Pending? ==> (r.1 == [AuthRequest, Save] <==> r.0.Suspend?)
    ensures r.1 in {[], [Perform], [AuthRequest], [AuthRequest, Save]}
    ensures r.0.Suspend? <==> r.1 == [AuthRequest, Save]
    ensures Perform in r.1 <==> verdict.Approved? || verdict.Other?
    ensures r.0.Suspend? ==> r.0.rec.op.moduleName == op.cls.moduleName && r.0.rec.op.name == op.cls.name
    ensures r.0.Suspend? ==>
              && verdict.Pending?
              && verdict.auth.cls.request(verdict.auth.attrs, op.attrs).Ok?
              && r.0.response == verdict.auth.cls.request(verdict.auth.attrs, op.attrs).value.0
              && r.0.rec.op.attrs == Serialiser.PublicAttrs(op.attrs)
              && r.0.rec.auth == Serialiser.Frozen(verdict.auth.cls.moduleName, verdict.auth.cls.name,
                                                   Serialiser.PublicAttrs(verdict.auth.cls.request(verdict.auth.attrs, op.attrs).value.1))
    ensures r.0.Suspend? && "uid" in op.attrs ==>
              r.0.uid == op.attrs["uid"] && "uid" in r.0.rec.op.attrs && r.0.rec.op.attrs["uid"] == op.attrs["uid"]
    ensures r.0.Suspend? && "uid" !in op.attrs ==> "uid" !in r.0.rec.op.attrs
    ensures (verdict.Approved? || verdict.Other?) ==> r.1 == [Perform] && (r.0.Done? || r.0.Fail?)
    ensures (verdict.Approved? || verdict.Other?) ==>
              (r.0.Done? <==> op.cls.perform(op.attrs).Ok?) &&
              (r.0.Done? ==> r.0.data == op.cls.perform(op.attrs).value)
  {
    match verdict
    case Denied => (Fail(ProcessError("Authorisation failed")), [])
    case Approved => Performed(op)
    case Other => Performed(op)
    case Pending(auth) =>
      match auth.cls.request(auth.attrs, op.attrs)
      case Err(e) => (Fail(e), [AuthRequest])
      case Ok(sent) =>
        var (response, authAttrs) := sent;
        match Serialiser.Serialise(modules, op.cls.moduleName, op.cls.name, op.attrs)
        case Err(e) => (Fail(e), [AuthRequest])
        case Ok(frozenOp) =>
          match Serialiser.Serialise(modules, auth.cls.moduleName, auth.cls.name, authAttrs)
          case Err(e) => (Fail(e), [AuthRequest])
          case Ok(frozenAuth) =>
            match GetAttr(op.cls.name, op.attrs, op.cls.classAttrs, "uid")
            case Err(e) => (Fail(e), [AuthRequest])
            case Ok(uid) => (Suspend(uid, Record(frozenOp, frozenAuth), response), [AuthRequest, Save])
  }

  /** `op.perform()`, whose return value is the reply's data. */
  function Performed(op: Op): (r: (Decision, seq<Call>))
    ensures r.1 == [Perform]
    ensures r.0.Done? <==> op.cls.perform(op.attrs).Ok?
    ensures r.0.Done? ==> r.0.data == op.cls.perform(op.attrs).value
    ensures !r.0.Done? ==> r.0 == Fail(op.cls.perform(op.attrs).error)
  {
    match op.cls.perform(op.attrs)
    case Err(e) => (Fail(e), [Perform])
    case Ok(d) => (Done(d), [Perform])
  }

  /** Apply a decision to the store and turn it into the reply. */
  function Finish(store: Store, d: Decision, calls: seq<Call>): (o: Outcome)
    ensures o.calls == calls
    ensures d.Suspend? ==> o.reply == Ok(Reply(d.uid, d.response)) && o.store == store[d.uid := d.rec]
    ensures !d.Suspend? ==> o.store == store
    ensures d.Fail? ==> o.reply == Err(d.error)
    ensures d.Done? ==> o.reply == Ok(Reply(JNull, d.data))
  {
    match d
    case Fail(e) => Outcome(Err(e), store, calls)
    case Suspend(uid, rec, response) => Outcome(Ok(Reply(uid, response)), store[uid := rec], calls)
    case Done(data) => Outcome(Ok(Reply(JNull, data)), store, calls)
  }

  /** The part of `process` before a verdict is acted on. */
  datatype Started = Started(result: Result<(Op, Verdict)>, store: Store, calls: seq<Call>)

  /** Check the secret, then route: `op` (which wins when `uid` is there
      too) starts a new operation, `uid` resumes a suspended one, and a
      request with neither is refused. */
  function Start(ops: map<string, OpClass>, modules: Modules, secret: string, store: Store, clock: Clock, request: Json): (s: Started)
    ensures s.calls in {[], [Prepare], [Prepare, Auth], [Load], [Load, AuthProcess], [Load, AuthProcess, AuthResponse]}
    ensures s.result.Ok? ==> s.calls == [Prepare, Auth] || s.calls == [Load, AuthProcess, AuthResponse]
    ensures s.calls == [] || s.calls[0] == Prepare ==> s.store == store
    ensures s.calls != [] && s.calls[0] == Load ==>
              request.JDict? && "uid" in request.fields && s.store == store - {request.fields["uid"]}
  {
    match CheckSecret(request, secret)
    case Err(e) => Started(Err(e), store, [])
    case Ok(fields) =>
      if "op" in fields then
        match LookupOp(ops, fields["op"])
        case Err(e) => Started(Err(e), store, [])
        case Ok(cls) =>
          var started := OpNew(cls, Get(fields, "data"), clock);
          Started(started.0, store, started.1)
      else if "uid" in fields then
        var uid := fields["uid"];
        var loaded := if uid in store then Ok(store[uid]) else Err(DoesNotExist(""));
        var rest := if uid in store then store - {uid} else store;
        var resumed := Resume(modules, loaded, Get(fields, "data"), clock);
        Started(resumed.0, rest, resumed.1)
      else Started(Err(ProcessError("Invalid message: operation not found")), store, [])
  }

  /** `Service.process` on one decoded request. */
  function Handle(ops: map<string, OpClass>, modules: Modules, secret: string, store: Store, clock: Clock, request: Json): (o: Outcome)
    ensures var s := Start(ops, modules, secret, store, clock, request);
            |s.calls| <= |o.calls| && o.calls[..|s.calls|] == s.calls
    ensures var s := Start(ops, modules, secret, store, clock, request);
            s.result.Err? ==> o == Outcome(Err(s.result.error), s.store, s.calls)
    ensures o.calls == [] ==> o.reply.Err? && o.store == store
  {
    var s := Start(ops, modules, secret, store, clock, request);
    match s.result
    case Err(e) => Outcome(Err(e), s.store, s.calls)
    case Ok(ov) =>
      var c := Conclude(modules, ov.0, ov.1);
      Finish(s.store, c.0, s.calls + c.1)
  }

  /** The message `listen` writes when `process` returns. */
  function SuccessReply(reply: Reply): (m: map<string, Json>)
    ensures m.Keys == {"success", "uid", "data"}
    ensures m["success"] == JBool(true) && m["uid"] == reply.uid && m["data"] == reply.data
  {
    map["success" := JBool(true), "uid" := reply.uid, "data" := reply.data]
  }

  /** The message `listen` writes when anything raises: `str(e)`. */
  function ErrorReply(e: Error): (m: map<string, Json>)
    ensures m.Keys == {"error"} && m["error"] == JStr(Text(e))
  {
    map["error" := JStr(Text(e))]
  }

  /** The message for the result of reading and processing a request. */
  function ReplyMessage(reply: Result<Reply>): map<string, Json>
  {
    match reply
    case Ok(r) => SuccessReply(r)
    case Err(e) => ErrorReply(e)
  }

  /** One connection as `listen` serves it. */
  datatype Served = Served(sent: Bytes, closed: bool, store: Store, calls: seq<Call>)

  /** Serve one accepted connection: read a request, process it, write the
      reply. A failing write of the reply is answered by an attempt to
      write the error, which fails the same way and is swallowed, so a
      client that cannot be written to receives nothing; a failing close is
      swallowed too. */
  function Serve(ops: map<string, OpClass>, modules: Modules, secret: string, codec: Codec,
                 store: Store, clock: Clock, incoming: Incoming): (sv: Served)
    ensures sv.closed == !incoming.closeFails
    ensures incoming.sendFails ==> sv.sent == []
    ensures !incoming.sendFails ==> EndsWithNewline(sv.sent)
    ensures var request := DecodeFrame(codec, ReadLine(incoming.peer, []).0);
            && (request.Err? ==> sv.store == store && sv.calls == [])
            && (request.Ok? ==> var o := Handle(ops, modules, secret, store, clock, request.value);
                                sv.store == o.store && sv.calls == o.calls)
    ensures var request := DecodeFrame(codec, ReadLine(incoming.peer, []).0);
            && (!incoming.sendFails && request.Err? ==>
                  sv.sent == Framed(codec, JDict(ErrorReply(request.error))))
            && (!incoming.sendFails && request.Ok? ==>
                  sv.sent == Framed(codec, JDict(ReplyMessage(Handle(ops, modules, secret, store, clock, request.value).reply))))
  {
    var request := DecodeFrame(codec, ReadLine(incoming.peer, []).0);
    var o := match request
             case Err(e) => Outcome(Err(e), store, [])
             case Ok(req) => Handle(ops, modules, secret, store, clock, req);
    var sent := if incoming.sendFails then [] else Framed(codec, JDict(ReplyMessage(o.reply)));
    Served(sent, !incoming.closeFails, o.store, o.calls)
  }

  /** A connection got what `s` says it is sent, and left the store `s` says. */
  ghost predicate ServedAs(client: Socket, next: Store, s: Served)
    reads client, client.conn
  {
    client.conn.sent == s.sent && client.conn.closed == s.closed && next == s.store
  }

  class Service {
    var operations: map<string, OpClass>
    const modules: Modules
    const secret: string
    const db: Memory
    const socket: Socket
    ghost var calls: seq<Call>

    constructor(secret: string, timeout: int, modules: Modules)
      ensures this.secret == secret && this.modules == modules
      ensures operations == map[] && fresh(db) && db.records == map[] && calls == []
      ensures fresh(socket) && socket.secret == Some(secret) && socket.timeout == timeout
    {
      operations := map[];
      this.modules := modules;
      this.secret := secret;
      db := new Memory();
      var listening := new Conn(Incoming(Peer([], []), false, false));
      socket := new Socket(listening, Some(secret), timeout);
      calls := [];
    }

    /** `register`: a later registration under the same name replaces the
        earlier one. */
    method Register(name: string, operation: OpClass)
      modifies this`operations
      ensures operations == old(operations)[name := operation]
    {
      operations := operations[name := operation];
    }

    /** The part of `process` before the verdict is acted on. */
    method Begin(request: Json, clock: Clock) returns (r: Result<(Op, Verdict)>)
      modifies db, this`calls
      ensures var s := Start(operations, modules, secret, old(db.records), clock, request);
              r == s.result && db.records == s.store && calls == old(calls) + s.calls
    {
      var checked := CheckSecret(request, secret);
      if checked.Err? {
        return Err(checked.error);
      }
      var fields := checked.value;
      if "op" in fields {
        var cls := LookupOp(operations, fields["op"]);
        if cls.Err? {
          return Err(cls.error);
        }
        var started := OpNew(cls.value, Get(fields, "data"), clock);
        calls := calls + started.1;
        r := started.0;
      } else if "uid" in fields {
        var loaded := db.Load(fields["uid"]);
        var resumed := Resume(modules, loaded, Get(fields, "data"), clock);
        calls := calls + resumed.1;
        r := resumed.0;
      } else {
        r := Err(ProcessError("Invalid message: operation not found"));
      }
    }

    /** The part of `process` that acts on the verdict. */
    method Act(op: Op, verdict: Verdict) returns (r: Result<Reply>)
      modifies db, this`calls
      ensures var c := Conclude(modules, op, verdict);
              var o := Finish(old(db.records), c.0, c.1);
              r == o.reply && db.records == o.store && calls == old(calls) + c.1
    {
      var concluded := Conclude(modules, op, verdict);
      calls := calls + concluded.1;
      match concluded.0
      case Fail(e) =>
        r := Err(e);
      case Suspend(uid, rec, response) =>
        db.Save(uid, rec);
        r := Ok(Reply(uid, response));
      case Done(data) =>
        r := Ok(Reply(JNull, data));
    }

    /** `process`, reading and writing the store through `db`. */
    method Process(request: Json, clock: Clock) returns (r: Result<Reply>)
      modifies db, this`calls
      ensures var o := Handle(operations, modules, secret, old(db.records), clock, request);
              r == o.reply && db.records == o.store && calls == old(calls) + o.calls
    {
      ghost var s := Start(operations, modules, secret, db.records, clock, request);
      var started := Begin(request, clock);
      if started.Err? {
        return Err(started.error);
      }
      ghost var c := Conclude(modules, started.value.0, started.value.1);
      r := Act(started.value.0, started.value.1);
      Associative(old(calls), s.calls, c.1);
    }

    /** One pass of the `listen` loop on an accepted connection. */
    method HandleConnection(codec: Codec, client: Socket, clock: Clock)
      requires client.secret == None
      modifies db, this`calls, client.conn
      ensures var s := Serve(operations, modules, secret, codec, old(db.records), clock,
                                     Incoming(old(client.conn.peer), client.conn.sendFails, client.conn.closeFails));
              && client.conn.sent == old(client.conn.sent) + s.sent
              && client.conn.closed == (old(client.conn.closed) || s.closed)
              && db.records == s.store
              && calls == old(calls) + s.calls
    {
      var request := client.Read(codec);
      var reply: Result<Reply>;
      if request.Err? {
        reply := Err(request.error);
      } else {
        reply := Process(request.value, clock);
      }
      var written := client.Write(codec, ReplyMessage(reply));
      if reply.Ok? && written.Err? {
        written := client.Write(codec, ErrorReply(written.error));
      }
      var closed := client.Close();
    }

    /** Accept a connection and serve it. */
    method AcceptAndServe(codec: Codec, incoming: Incoming, clock: Clock) returns (client: Socket)
      modifies db, this`calls
      ensures fresh(client.conn)
      ensures var s := Serve(operations, modules, secret, codec, old(db.records), clock, incoming);
              client.conn.sent == s.sent && client.conn.closed == s.closed && db.records == s.store
    {
      client := socket.Accept(incoming);
      HandleConnection(codec, client, clock);
    }

    /** `listen`, over a finite sequence of incoming connections, each
        with the clock reading its request sees: the connections are served
        in order, each seeing the store the previous one left
        (`stores[i]`). */
    method Listen(codec: Codec, queue: seq<(Incoming, Clock)>) returns (clients: seq<Socket>, ghost stores: seq<Store>)
      modifies db, this`calls
      ensures |clients| == |queue| && |stores| == |queue| + 1
      ensures stores[0] == old(db.records) && db.records == stores[|queue|]
      ensures forall i :: 0 <= i < |clients| ==> fresh(clients[i].conn)
      ensures forall i :: 0 <= i < |clients| ==>
                ServedAs(clients[i], stores[i + 1], Serve(operations, modules, secret, codec, stores[i], queue[i].1, queue[i].0))
    {
      clients, stores := [], [db.records];
      var k := 0;
      while k < |queue|
        invariant 0 <= k <= |queue| && |clients| == k && |stores| == k + 1
        invariant stores[0] == old(db.records) && db.records == stores[k]
        invariant forall i :: 0 <= i < k ==> fresh(clients[i].conn)
        invariant forall i :: 0 <= i < k ==>
                    ServedAs(clients[i], stores[i + 1], Serve(operations, modules, secret, codec, stores[i], queue[i].1, queue[i].0))
      {
        var client := AcceptAndServe(codec, queue[k].0, queue[k].1);
        clients, stores := clients + [client], stores + [db.records];
        k := k + 1;
      }
    }
  }
}
