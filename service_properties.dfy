/** What the service promises about a request, stated over `Service.Handle`
    (one request) and `Service.Serve` (one connection). */
module ServiceProperties {
  import opened Values
  import opened Operation
  import Serialiser
  import opened Storage
  import opened Transport
  import opened Service

  /** The request carries the service's secret. */
  predicate Authentic(fields: map<string, Json>, secret: string)
  {
    "secret" in fields && fields["secret"] == JStr(secret)
  }

  // ---------------------------------------------------------------------
  // The secret and the routing
  // ---------------------------------------------------------------------

  /** A dict without the right secret is refused before anything else:
      no user code runs and the store is untouched. */
  lemma PermissionDenied(ops: map<string, OpClass>, modules: Modules, secret: string, store: Store, clock: Clock,
                         fields: map<string, Json>)
    requires !Authentic(fields, secret)
    ensures Handle(ops, modules, secret, store, clock, JDict(fields))
            == Outcome(Err(ProcessError("Permission denied")), store, [])
  {
  }

  /** Whatever the request, if it is not a dict with the right secret,
      nothing runs, nothing is stored and the reply is an error. */
  lemma NothingWithoutSecret(ops: map<string, OpClass>, modules: Modules, secret: string, store: Store, clock: Clock,
                             request: Json)
    requires !(request.JDict? && Authentic(request.fields, secret))
    ensures var o := Handle(ops, modules, secret, store, clock, request);
            o.reply.Err? && o.store == store && o.calls == []
  {
  }

  /** A request naming both an operation and a uid starts a new operation:
      the uid is ignored. */
  lemma OpWins(ops: map<string, OpClass>, modules: Modules, secret: string, store: Store, clock: Clock,
               fields: map<string, Json>)
    requires "op" in fields
    ensures Handle(ops, modules, secret, store, clock, JDict(fields))
            == Handle(ops, modules, secret, store, clock, JDict(fields - {"uid"}))
  {
    var without := fields - {"uid"};
    assert Authentic(fields, secret) <==> Authentic(without, secret);
    assert "op" in without && without["op"] == fields["op"];
    assert Get(without, "data") == Get(fields, "data");
  }

  /** A request with the secret but with neither `op` nor `uid` is refused. */
  lemma NoRoute(ops: map<string, OpClass>, modules: Modules, secret: string, store: Store, clock: Clock,
                fields: map<string, Json>)
    requires Authentic(fields, secret) && "op" !in fields && "uid" !in fields
    ensures Handle(ops, modules, secret, store, clock, JDict(fields))
            == Outcome(Err(ProcessError("Invalid message: operation not found")), store, [])
  {
  }

  /** An unregistered operation name is refused before any operation is
      constructed. */
  lemma UnknownOperation(ops: map<string, OpClass>, modules: Modules, secret: string, store: Store, clock: Clock,
                         fields: map<string, Json>, name: string)
    requires Authentic(fields, secret) && "op" in fields && fields["op"] == JStr(name) && name !in ops
    ensures Handle(ops, modules, secret, store, clock, JDict(fields))
            == Outcome(Err(ProcessError("Unknown operation")), store, [])
  {
  }

  // ---------------------------------------------------------------------
  // A new operation
  // ---------------------------------------------------------------------

  /** The facts that route a request to `op_new` for a registered class. */
  ghost predicate NewRequest(ops: map<string, OpClass>, secret: string, fields: map<string, Json>, cls: OpClass)
  {
    Authentic(fields, secret) && "op" in fields && fields["op"].JStr? && fields["op"].s in ops
    && ops[fields["op"].s] == cls
  }

  /** A ValueError from `prepare` becomes "Invalid data: ..."; no verdict is
      asked for, nothing is performed or stored. */
  lemma InvalidData(ops: map<string, OpClass>, modules: Modules, secret: string, store: Store, clock: Clock,
                    fields: map<string, Json>, cls: OpClass, msg: string)
    requires NewRequest(ops, secret, fields, cls)
    requires cls.prepare(InitAttrs(clock.ts, clock.rnd), Get(fields, "data")) == Err(ValueError(msg))
    ensures Handle(ops, modules, secret, store, clock, JDict(fields))
            == Outcome(Err(ProcessError("Invalid data: " + msg)), store, [Prepare])
  {
  }

  /** A verdict of exactly False refuses the operation: nothing is performed
      or stored. */
  lemma Refused(ops: map<string, OpClass>, modules: Modules, secret: string, store: Store, clock: Clock,
                fields: map<string, Json>, cls: OpClass, attrs: Attrs)
    requires NewRequest(ops, secret, fields, cls)
    requires cls.prepare(InitAttrs(clock.ts, clock.rnd), Get(fields, "data")) == Ok(attrs)
    requires cls.auth(attrs) == Ok(Denied)
    ensures Handle(ops, modules, secret, store, clock, JDict(fields))
            == Outcome(Err(ProcessError("Authorisation failed")), store, [Prepare, Auth])
  {
  }

  /** Any verdict other than False and an Auth instance (True, None, any
      other value) performs the operation once; the reply carries no uid. */
  lemma Performed(ops: map<string, OpClass>, modules: Modules, secret: string, store: Store, clock: Clock,
                  fields: map<string, Json>, cls: OpClass, attrs: Attrs, verdict: Verdict, data: Json)
    requires NewRequest(ops, secret, fields, cls)
    requires cls.prepare(InitAttrs(clock.ts, clock.rnd), Get(fields, "data")) == Ok(attrs)
    requires cls.auth(attrs) == Ok(verdict) && (verdict.Approved? || verdict.Other?)
    requires cls.perform(attrs) == Ok(data)
    ensures Handle(ops, modules, secret, store, clock, JDict(fields))
            == Outcome(Ok(Reply(JNull, data)), store, [Prepare, Auth, Perform])
  {
  }

  /** An operation class that overrides nothing accepts any data, approves
      itself, and is performed once with None as the reply's data. */
  lemma BaseOperationRuns(ops: map<string, OpClass>, modules: Modules, secret: string, store: Store, clock: Clock,
                          fields: map<string, Json>, moduleName: string, name: string)
    requires NewRequest(ops, secret, fields, BaseOperation(moduleName, name))
    ensures Handle(ops, modules, secret, store, clock, JDict(fields))
            == Outcome(Ok(Reply(JNull, JNull)), store, [Prepare, Auth, Perform])
  {
    Performed(ops, modules, secret, store, clock, fields, BaseOperation(moduleName, name),
              InitAttrs(clock.ts, clock.rnd), Approved, JNull);
  }

  /** An Auth verdict sends the auth request, stores the frozen operation
      and auth object under the operation's uid, and replies with that uid
      and the request's message; nothing is performed. */
  lemma Suspended(ops: map<string, OpClass>, modules: Modules, secret: string, store: Store, clock: Clock,
                  fields: map<string, Json>, cls: OpClass, attrs: Attrs, auth: AuthObj,
                  response: Json, sentAttrs: Attrs)
    requires NewRequest(ops, secret, fields, cls)
    requires cls.prepare(InitAttrs(clock.ts, clock.rnd), Get(fields, "data")) == Ok(attrs)
    requires cls.auth(attrs) == Ok(Pending(auth))
    requires auth.cls.request(auth.attrs, attrs) == Ok((response, sentAttrs))
    requires cls.moduleName in modules && cls.name in modules[cls.moduleName]
    requires auth.cls.moduleName in modules && auth.cls.name in modules[auth.cls.moduleName]
    requires "uid" in attrs
    ensures var rec := Record(Serialiser.Frozen(cls.moduleName, cls.name, Serialiser.PublicAttrs(attrs)),
                              Serialiser.Frozen(auth.cls.moduleName, auth.cls.name, Serialiser.PublicAttrs(sentAttrs)));
            Handle(ops, modules, secret, store, clock, JDict(fields))
            == Outcome(Ok(Reply(attrs["uid"], response)), store[attrs["uid"] := rec], [Prepare, Auth, AuthRequest, Save])
  {
  }

  // ---------------------------------------------------------------------
  // The order of calls
  // ---------------------------------------------------------------------

  /** Every call sequence a request can make: `prepare` then `auth`, or
      `load`, `process` then `auth_response`, each possibly cut short by an
      exception; after a verdict, either `perform`, or the auth request
      followed (unless something raises) by a save. */
  const Lifecycles: set<seq<Call>> := {
    [], [Prepare], [Prepare, Auth], [Load], [Load, AuthProcess], [Load, AuthProcess, AuthResponse],
    [Prepare, Auth, Perform], [Prepare, Auth, AuthRequest], [Prepare, Auth, AuthRequest, Save],
    [Load, AuthProcess, AuthResponse, Perform], [Load, AuthProcess, AuthResponse, AuthRequest],
    [Load, AuthProcess, AuthResponse, AuthRequest, Save]
  }

  /** Hence `perform` runs at most once, last, and only after a verdict;
      nothing is saved after a `perform` and nothing performed after a save. */
  lemma CallOrder(ops: map<string, OpClass>, modules: Modules, secret: string, store: Store,
                  clock: Clock, request: Json)
    ensures var o := Handle(ops, modules, secret, store, clock, request);
            && o.calls in Lifecycles
            && (Perform in o.calls ==> o.calls == [Prepare, Auth, Perform] || o.calls == [Load, AuthProcess, AuthResponse, Perform])
            && (Save in o.calls ==> o.calls == [Prepare, Auth, AuthRequest, Save]
                                    || o.calls == [Load, AuthProcess, AuthResponse, AuthRequest, Save])
  {
    var s := Start(ops, modules, secret, store, clock, request);
    var o := Handle(ops, modules, secret, store, clock, request);
    if s.result.Ok? {
      var c := Conclude(modules, s.result.value.0, s.result.value.1);
      assert o.calls == s.calls + c.1;
      Compose(s.calls, c.1);
    } else {
      assert o.calls == s.calls + [];
      Compose(s.calls, []);
    }
  }

  /** The calls before a verdict followed by the calls acting on it. */
  lemma Compose(opening: seq<Call>, closing: seq<Call>)
    requires opening in {[], [Prepare], [Prepare, Auth], [Load], [Load, AuthProcess], [Load, AuthProcess, AuthResponse]}
    requires closing in {[], [Perform], [AuthRequest], [AuthRequest, Save]}
    requires closing != [] ==> opening == [Prepare, Auth] || opening == [Load, AuthProcess, AuthResponse]
    ensures opening + closing in Lifecycles
    ensures Perform in opening + closing ==>
              opening + closing == [Prepare, Auth, Perform] || opening + closing == [Load, AuthProcess, AuthResponse, Perform]
    ensures Save in opening + closing ==>
              opening + closing == [Prepare, Auth, AuthRequest, Save]
              || opening + closing == [Load, AuthProcess, AuthResponse, AuthRequest, Save]
  {
    var calls := opening + closing;
    if closing == [] {
      assert calls == opening;
      assert opening == [] || opening == [Prepare] || opening == [Prepare, Auth]
          || opening == [Load] || opening == [Load, AuthProcess] || opening == [Load, AuthProcess, AuthResponse];
    } else if opening == [Prepare, Auth] {
      assert calls == [Prepare, Auth] + closing;
      assert calls == [Prepare, Auth, Perform] || calls == [Prepare, Auth, AuthRequest] || calls == [Prepare, Auth, AuthRequest, Save];
    } else {
      assert calls == [Load, AuthProcess, AuthResponse] + closing;
      assert calls == [Load, AuthProcess, AuthResponse, Perform] || calls == [Load, AuthProcess, AuthResponse, AuthRequest]
          || calls == [Load, AuthProcess, AuthResponse, AuthRequest, Save];
    }
  }

  /** `perform` runs exactly when a verdict was reached and it is neither
      False nor an Auth instance. */
  lemma PerformExactlyWhenAllowed(ops: map<string, OpClass>, modules: Modules, secret: string, store: Store,
                                  clock: Clock, request: Json)
    ensures var s := Start(ops, modules, secret, store, clock, request);
            var o := Handle(ops, modules, secret, store, clock, request);
            Perform in o.calls <==> s.result.Ok? && (s.result.value.1.Approved? || s.result.value.1.Other?)
  {
    var s := Start(ops, modules, secret, store, clock, request);
    assert Perform !in s.calls;
    if s.result.Ok? {
      var c := Conclude(modules, s.result.value.0, s.result.value.1);
      assert Handle(ops, modules, secret, store, clock, request).calls == s.calls + c.1;
      assert Perform in s.calls + c.1 <==> Perform in c.1;
    } else {
      assert Handle(ops, modules, secret, store, clock, request).calls == s.calls;
    }
  }

  // ---------------------------------------------------------------------
  // Resuming a suspended operation
  // ---------------------------------------------------------------------

  /** The facts that route a request to `op_existing` for `uid`. */
  predicate ResumeRequest(secret: string, fields: map<string, Json>, uid: Json)
  {
    Authentic(fields, secret) && "op" !in fields && "uid" in fields && fields["uid"] == uid
  }

  /** Resuming an id the store does not hold fails with a ProcessError with
      no message, and changes nothing. */
  lemma ResumeUnknown(ops: map<string, OpClass>, modules: Modules, secret: string, store: Store, clock: Clock,
                      fields: map<string, Json>, uid: Json)
    requires ResumeRequest(secret, fields, uid) && uid !in store
    ensures Handle(ops, modules, secret, store, clock, JDict(fields)) == Outcome(Err(ProcessError("")), store, [Load])
  {
  }

  /** A resume request for a stored id loads that record and resumes it
      with the request's `data`. */
  lemma StartResumes(ops: map<string, OpClass>, modules: Modules, secret: string, store: Store, clock: Clock,
                     fields: map<string, Json>, uid: Json)
    requires ResumeRequest(secret, fields, uid) && uid in store
    ensures var r := Resume(modules, Ok(store[uid]), Get(fields, "data"), clock);
            Start(ops, modules, secret, store, clock, JDict(fields)) == Started(r.0, store - {uid}, r.1)
  {
  }

  /** A stored record whose operation or auth class can no longer be found
      is consumed and refused: a module without the class gives "Could not
      deserialise operation: ...", a missing module's ImportError passes
      through; nothing is processed. */
  lemma ResumeNotDeserialised(ops: map<string, OpClass>, modules: Modules, secret: string, store: Store, clock: Clock,
                              fields: map<string, Json>, uid: Json)
    requires ResumeRequest(secret, fields, uid) && uid in store
    requires Serialiser.GetClassFromName(modules, store[uid].op.moduleName, store[uid].op.name).Err?
             || Serialiser.GetClassFromName(modules, store[uid].auth.moduleName, store[uid].auth.name).Err?
    ensures var f := if Serialiser.GetClassFromName(modules, store[uid].op.moduleName, store[uid].op.name).Err?
                     then store[uid].op else store[uid].auth;
            var o := Handle(ops, modules, secret, store, clock, JDict(fields));
            && o.store == store - {uid} && o.calls == [Load] && o.reply.Err?
            && (f.moduleName in modules ==>
                  o.reply.error == ProcessError("Could not deserialise operation: "
                                                + ("Cannot serialise " + f.name + " - not found in " + f.moduleName)))
            && (f.moduleName !in modules ==> o.reply.error.ImportError?)
  {
    var rec := store[uid];
    var r := Resume(modules, Ok(rec), Get(fields, "data"), clock);
    StartResumes(ops, modules, secret, store, clock, fields, uid);
    var f := if Serialiser.GetClassFromName(modules, rec.op.moduleName, rec.op.name).Err? then rec.op else rec.auth;
    var e := Serialiser.GetClassFromName(modules, f.moduleName, f.name).error;
    assert Serialiser.Deserialised(modules, Fresh(clock), f) == Err(e);
    var thawed := Thaw(modules, f, clock);
    assert thawed == Err(if e.ValueError? then ProcessError("Could not deserialise operation: " + e.msg) else e);
    assert r == (Err(thawed.error), [Load]);
    assert Handle(ops, modules, secret, store, clock, JDict(fields)) == Outcome(Err(thawed.error), store - {uid}, [Load]);
  }

  /** Resuming a stored operation whose classes thaw: the auth object's
      `process` sees its thawed attributes, the operation's thawed attributes
      and the request's `data`; `auth_response` then gives the verdict on
      the processed attributes, which is acted on as for a new operation;
      the record is gone either way. */
  lemma ResumeVerdict(ops: map<string, OpClass>, modules: Modules, secret: string, store: Store, clock: Clock,
                      fields: map<string, Json>, uid: Json, cls: OpClass, acls: AuthClass,
                      opAttrs: Attrs, authAttrs: Attrs, processed: (Attrs, Attrs), verdict: Verdict)
    requires ResumeRequest(secret, fields, uid) && uid in store
    requires Thaw(modules, store[uid].op, clock) == Ok((OpKind(cls), opAttrs))
    requires Thaw(modules, store[uid].auth, clock) == Ok((AuthKind(acls), authAttrs))
    requires acls.process(authAttrs, opAttrs, Get(fields, "data")) == Ok(processed)
    requires cls.authResponse(processed.1, AuthObj(acls, processed.0)) == Ok(verdict)
    ensures var c := Conclude(modules, Op(cls, processed.1), verdict);
            Handle(ops, modules, secret, store, clock, JDict(fields))
            == Finish(store - {uid}, c.0, [Load, AuthProcess, AuthResponse] + c.1)
  {
  }

  /** Every auth class whose `process` leaves the operation's uid alone. */
  ghost predicate KeepsUid(acls: AuthClass)
  {
    forall a, o, d :: "uid" in o && acls.process(a, o, d).Ok? ==>
      "uid" in acls.process(a, o, d).value.1 && acls.process(a, o, d).value.1["uid"] == o["uid"]
  }

  /** Resuming keeps the operation's stored uid when the auth object's
      `process` leaves it alone. */
  lemma ResumeKeepsUid(modules: Modules, rec: Record, data: Json, clock: Clock)
    requires "uid" in rec.op.attrs
    requires Thaw(modules, rec.auth, clock).Ok? && Thaw(modules, rec.auth, clock).value.0.AuthKind?
    requires KeepsUid(Thaw(modules, rec.auth, clock).value.0.auth)
    ensures var r := Resume(modules, Ok(rec), data, clock);
            r.0.Ok? ==> "uid" in r.0.value.0.attrs && r.0.value.0.attrs["uid"] == rec.op.attrs["uid"]
  {
    var r := Resume(modules, Ok(rec), data, clock);
    if r.0.Ok? {
      var thawedOp := Thaw(modules, rec.op, clock).value;
      var thawedAuth := Thaw(modules, rec.auth, clock).value;
      ThawKeepsUid(modules, rec.op, clock);
      var processed := thawedAuth.0.auth.process(thawedAuth.1, thawedOp.1, data);
      assert r.0.value.0.attrs == processed.value.1;
    }
  }

  /** A resumed operation that suspends again is saved under the uid it was
      stored with, not under a new one. */
  lemma ResuspendedUnderOldUid(ops: map<string, OpClass>, modules: Modules, secret: string, store: Store, clock: Clock,
                               fields: map<string, Json>, uid: Json)
    requires ResumeRequest(secret, fields, uid) && uid in store && Keyed(store) && "uid" in store[uid].op.attrs
    requires Thaw(modules, store[uid].auth, clock).Ok? && Thaw(modules, store[uid].auth, clock).value.0.AuthKind?
    requires KeepsUid(Thaw(modules, store[uid].auth, clock).value.0.auth)
    ensures var o := Handle(ops, modules, secret, store, clock, JDict(fields));
            Save in o.calls ==> o.reply.Ok? && o.reply.value.uid == uid && uid in o.store
                                && o.store == (store - {uid})[uid := o.store[uid]]
  {
    var r := Resume(modules, Ok(store[uid]), Get(fields, "data"), clock);
    StartResumes(ops, modules, secret, store, clock, fields, uid);
    ResumeKeepsUid(modules, store[uid], Get(fields, "data"), clock);
  }

  /** Resuming a stored id removes its record whatever happens next; the
      only record added is the one saved under the reply's uid when the
      operation is suspended again. */
  lemma ResumeConsumes(ops: map<string, OpClass>, modules: Modules, secret: string, store: Store, clock: Clock,
                       fields: map<string, Json>, uid: Json)
    requires ResumeRequest(secret, fields, uid) && uid in store
    ensures var o := Handle(ops, modules, secret, store, clock, JDict(fields));
            && o.calls != [] && o.calls[0] == Load
            && (Save !in o.calls ==> o.store == store - {uid})
            && (Save in o.calls ==> o.reply.Ok? && o.reply.value.uid in o.store
                                    && o.store == (store - {uid})[o.reply.value.uid := o.store[o.reply.value.uid]])
  {
    var s := Start(ops, modules, secret, store, clock, JDict(fields));
    assert s.calls != [] && s.calls[0] == Load;
    HandleStore(ops, modules, secret, store, clock, JDict(fields));
  }

  /** What acting on the verdict does to the store: nothing, or one save
      under the reply's uid. */
  lemma HandleStore(ops: map<string, OpClass>, modules: Modules, secret: string, store: Store, clock: Clock, request: Json)
    ensures var s := Start(ops, modules, secret, store, clock, request);
            var o := Handle(ops, modules, secret, store, clock, request);
            && |o.calls| >= |s.calls| && o.calls[..|s.calls|] == s.calls
            && (Save !in o.calls ==> o.store == s.store)
            && (Save in o.calls ==> o.reply.Ok? && o.reply.value.uid in o.store
                                    && o.store == s.store[o.reply.value.uid := o.store[o.reply.value.uid]])
  {
    var s := Start(ops, modules, secret, store, clock, request);
    var o := Handle(ops, modules, secret, store, clock, request);
    assert Save !in s.calls;
    if s.result.Ok? {
      var c := Conclude(modules, s.result.value.0, s.result.value.1);
      assert o == Finish(s.store, c.0, s.calls + c.1);
      assert o.calls == s.calls + c.1;
      assert o.calls[..|s.calls|] == s.calls;
      assert Save in o.calls <==> Save in c.1;
      assert Save in c.1 <==> c.0.Suspend?;
    } else {
      assert o == Outcome(Err(s.result.error), s.store, s.calls);
      assert o.calls[..|s.calls|] == s.calls;
    }
  }

  /** A suspended operation can be resumed once: unless the first resume
      suspends it again under the same id, a second resume with the same id
      fails. */
  lemma SecondResumeFails(ops: map<string, OpClass>, modules: Modules, secret: string, store: Store,
                          clock1: Clock, clock2: Clock, fields: map<string, Json>, uid: Json)
    requires ResumeRequest(secret, fields, uid) && uid in store
    requires var o := Handle(ops, modules, secret, store, clock1, JDict(fields));
             !(Save in o.calls && o.reply.Ok? && o.reply.value.uid == uid)
    ensures var o := Handle(ops, modules, secret, store, clock1, JDict(fields));
            Handle(ops, modules, secret, o.store, clock2, JDict(fields)) == Outcome(Err(ProcessError("")), o.store, [Load])
  {
    var o := Handle(ops, modules, secret, store, clock1, JDict(fields));
    ResumeConsumes(ops, modules, secret, store, clock1, fields, uid);
    assert uid !in o.store;
    ResumeUnknown(ops, modules, secret, o.store, clock2, fields, uid);
  }

  /** Thawing restores the stored uid: a resumed operation keeps the id it
      was suspended under (the constructor's fresh uid is overwritten). Only
      a record without a uid gets the fresh one. */
  lemma ThawKeepsUid(modules: Modules, frozen: Serialiser.Frozen, clock: Clock)
    requires Thaw(modules, frozen, clock).Ok?
    ensures var t := Thaw(modules, frozen, clock).value;
            && ("uid" in frozen.attrs ==> "uid" in t.1 && t.1["uid"] == frozen.attrs["uid"])
            && ("uid" !in frozen.attrs && t.0.OpKind? ==> "uid" in t.1 && t.1["uid"] == JStr(Uid(clock.ts, clock.rnd)))
  {
    var t := Thaw(modules, frozen, clock).value;
    if "uid" !in frozen.attrs && t.0.OpKind? {
      assert Fresh(clock)(t.0) == InitAttrs(clock.ts, clock.rnd);
    }
  }

  /** Every stored record whose operation has a uid is stored under it. */
  ghost predicate Keyed(store: Store)
  {
    forall k :: k in store && "uid" in store[k].op.attrs ==> store[k].op.attrs["uid"] == k
  }

  /** Processing a request keeps every record stored under its operation's
      uid. */
  lemma {:induction false} KeyedPreserved(ops: map<string, OpClass>, modules: Modules, secret: string, store: Store,
                                          clock: Clock, request: Json)
    requires Keyed(store)
    ensures Keyed(Handle(ops, modules, secret, store, clock, request).store)
  {
    var s := Start(ops, modules, secret, store, clock, request);
    assert Keyed(s.store);
    if s.result.Ok? {
      var c := Conclude(modules, s.result.value.0, s.result.value.1);
      assert Handle(ops, modules, secret, store, clock, request).store == Finish(s.store, c.0, s.calls + c.1).store;
    }
  }

  // ---------------------------------------------------------------------
  // Replies
  // ---------------------------------------------------------------------

  /** What a client makes of a reply message: the uid and data of a
      success, or the error text. */
  function ReadReply(m: map<string, Json>): Result<Reply>
  {
    if "success" in m && m["success"] == JBool(true) && "uid" in m && "data" in m then Ok(Reply(m["uid"], m["data"]))
    else if "error" in m && m["error"].JStr? then Err(Raised("error", m["error"].s))
    else Err(ProcessError("Invalid reply"))
  }

  /** A reply message tells success from failure and carries the uid and
      data, or the text of the exception; it never carries the secret. */
  lemma ReplyRoundTrip(reply: Result<Reply>)
    ensures "secret" !in ReplyMessage(reply)
    ensures reply.Ok? ==> ReadReply(ReplyMessage(reply)) == reply
    ensures reply.Err? ==> ReadReply(ReplyMessage(reply)) == Err(Raised("error", Text(reply.error)))
  {
  }

  /** A client request as `Socket.write` sends it: the secret, then the
      `op` and `data` keys of `Client.request`. */
  function NewOperationRequest(secret: string, name: string, data: Json): map<string, Json>
  {
    Outgoing(Some(secret), map["op" := JStr(name), "data" := data])
  }

  /** The same for `Client.auth`: the uid and the auth data. */
  function ResumeOperationRequest(secret: string, uid: Json, data: Json): map<string, Json>
  {
    Outgoing(Some(secret), map["uid" := uid, "data" := data])
  }

  /** Requests built by a client holding the service's secret pass the
      check and are routed as intended. */
  lemma ClientRequestsRoute(secret: string, name: string, uid: Json, data: Json)
    ensures NewRequestShape(secret, NewOperationRequest(secret, name, data), name, data)
    ensures var f := ResumeOperationRequest(secret, uid, data);
            ResumeRequest(secret, f, uid) && Get(f, "data") == data
  {
  }

  predicate NewRequestShape(secret: string, fields: map<string, Json>, name: string, data: Json)
  {
    Authentic(fields, secret) && "op" in fields && fields["op"] == JStr(name) && Get(fields, "data") == data
  }

  /** One connection from end to end: when the client's request arrives
      whole and the reply's JSON text reads back, the bytes the service
      sends decode to the reply message for what `process` made of that
      request, and the store is what `process` left. */
  lemma ServeEndToEnd(ops: map<string, OpClass>, modules: Modules, secret: string, codec: Codec, store: Store,
                      clock: Clock, request: Json, es: seq<Event>, replyEvents: seq<Event>,
                      sendFails: bool, closeFails: bool)
    requires Faithful(codec, request)
    requires forall i :: 0 <= i < |es| ==> es[i].Ready?
    requires |es| >= |Framed(codec, request)|
    requires var o := Handle(ops, modules, secret, store, clock, request);
             Faithful(codec, JDict(ReplyMessage(o.reply)))
    requires forall i :: 0 <= i < |replyEvents| ==> replyEvents[i].Ready?
    ensures var o := Handle(ops, modules, secret, store, clock, request);
            var s := Serve(ops, modules, secret, codec, store, clock, Incoming(Peer(Framed(codec, request), es), sendFails, closeFails));
            && s.store == o.store
            && s.calls == o.calls
            && (sendFails ==> s.sent == [])
            && (!sendFails && |replyEvents| >= |s.sent| ==>
                  DecodeFrame(codec, ReadLine(Peer(s.sent, replyEvents), []).0) == Ok(JDict(ReplyMessage(o.reply))))
  {
    WriteThenRead(codec, request, es);
    var o := Handle(ops, modules, secret, store, clock, request);
    var s := Serve(ops, modules, secret, codec, store, clock, Incoming(Peer(Framed(codec, request), es), sendFails, closeFails));
    if !sendFails && |replyEvents| >= |s.sent| {
      WriteThenRead(codec, JDict(ReplyMessage(o.reply)), replyEvents);
    }
  }
}
