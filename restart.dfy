/** examples/backend/restart.py: an operation that restarts a system
    service. `prepare` admits only nginx and supervisor; nginx restarts are
    approved at once, anything else waits for an e-mailed confirmation. The
    lemmas below run it through the service's lifecycle. */
module Restart {
  import opened Values
  import opened Operation
  import Serialiser
  import opened Storage
  import opened Service
  import ServiceProperties

  /** The services `prepare` admits. */
  const Services: set<Json> := {JStr("nginx"), JStr("supervisor")}

  /** `Restart.prepare(data)`: `data.get("service_name")` must be set and
      name one of the admitted services; it becomes the instance's
      `service_name`. Data that is not a dict has no `get`. */
  function RestartPrepare(attrs: Attrs, data: Json): (r: Result<Attrs>)
    ensures !data.JDict? ==> r == Err(AttributeError("'" + TypeName(data) + "' object has no attribute 'get'"))
    ensures data.JDict? && !Truthy(Get(data.fields, "service_name")) ==> r == Err(ValueError("Missing service name"))
    ensures data.JDict? && Truthy(Get(data.fields, "service_name")) && Get(data.fields, "service_name") !in Services
            ==> r == Err(ValueError("Unexpected service name"))
    ensures r.Ok? <==> data.JDict? && "service_name" in data.fields && data.fields["service_name"] in Services
    ensures r.Ok? ==> && r.value.Keys == attrs.Keys + {"service_name"}
                      && r.value["service_name"] == data.fields["service_name"]
                      && forall k :: k in attrs && k != "service_name" ==> r.value[k] == attrs[k]
  {
    if !data.JDict? then Err(AttributeError("'" + TypeName(data) + "' object has no attribute 'get'"))
    else
      var name := Get(data.fields, "service_name");
      if !Truthy(name) then Err(ValueError("Missing service name"))
      else if name !in Services then Err(ValueError("Unexpected service name"))
      else Ok(attrs["service_name" := name])
  }

  const Recipient: string := "me@example.com"
  const Subject: string := "Server wants to restart"

  /** `str(value)` for the values `service_name` can hold. */
  function Str(j: Json): string
  {
    match j
    case JStr(s) => s
    case JNull => "None"
    case JBool(b) => if b then "True" else "False"
    case JInt(i) => if i < 0 then "-" + DecimalString(-i) else DecimalString(i)
    case JList(_) => "[...]"
    case JDict(_) => "{...}"
  }

  /** The confirmation request: an `Email` auth object, given the recipient,
      subject and body as keyword arguments, which it keeps as attributes. */
  function Confirmation(email: AuthClass, name: Json): AuthObj
  {
    AuthObj(email, email.init + map["to" := JStr(Recipient), "subject" := JStr(Subject),
                                    "body" := JStr("Really restart " + Str(name) + "?")])
  }

  /** `Restart.auth()`: True for nginx, otherwise a confirmation e-mail. */
  function RestartAuth(email: AuthClass, attrs: Attrs): (r: Result<Verdict>)
    ensures r.Ok? <==> "service_name" in attrs
    ensures r == Ok(Approved) <==> "service_name" in attrs && attrs["service_name"] == JStr("nginx")
    ensures r.Ok? && !r.value.Approved? ==>
              r.value.Pending? && r.value.auth == Confirmation(email, attrs["service_name"])
              && r.value.auth.attrs["to"] == JStr(Recipient)
  {
    match GetAttr("Restart", attrs, map[], "service_name")
    case Err(e) => Err(e)
    case Ok(name) =>
      if name == JStr("nginx") then Ok(Approved) else Ok(Pending(Confirmation(email, name)))
  }

  /** The `Restart` class as registered from the script run as `__main__`:
      its `auth_response` returns `auth.state`, as the default one does, and
      its `perform` returns None. */
  function RestartClass(email: AuthClass): (c: OpClass)
    ensures c.moduleName == "__main__" && c.name == "Restart" && c.classAttrs == map[]
    ensures forall a, d :: c.prepare(a, d) == RestartPrepare(a, d)
    ensures forall a :: c.auth(a) == RestartAuth(email, a)
    ensures forall a :: c.perform(a) == Ok(JNull)
  {
    OpClass("__main__", "Restart", map[], RestartPrepare, a => RestartAuth(email, a), DefaultAuthResponse, DefaultPerform)
  }

  /** The secret the script gives its service. */
  const Secret: string := "123456"

  function Registry(email: AuthClass): map<string, OpClass>
  {
    map["restart" := RestartClass(email)]
  }

  /** The classes `deserialise` can find: `Restart` and the e-mail auth. */
  function Importable(email: AuthClass): Modules
    requires email.moduleName != "__main__"
  {
    map["__main__" := map["Restart" := OpKind(RestartClass(email))],
        email.moduleName := map[email.name := AuthKind(email)]]
  }

  /** A client's request to restart `name`. */
  function RestartRequest(name: Json): map<string, Json>
  {
    map["secret" := JStr(Secret), "op" := JStr("restart"), "data" := JDict(map["service_name" := name])]
  }

  /** The attributes of a prepared restart of `name`. */
  function Prepared(clock: Clock, name: Json): Attrs
  {
    InitAttrs(clock.ts, clock.rnd)["service_name" := name]
  }

  /** The facts that route a request to a new restart, with `data` as its
      data. */
  ghost predicate AsksRestart(email: AuthClass, fields: map<string, Json>, data: Json)
  {
    ServiceProperties.NewRequest(Registry(email), Secret, fields, RestartClass(email)) && Get(fields, "data") == data
  }

  /** What a client sends is such a request. */
  lemma RestartRequestAsks(email: AuthClass, name: Json)
    ensures AsksRestart(email, RestartRequest(name), JDict(map["service_name" := name]))
  {
  }

  /** Restarting nginx is performed at once; nothing is stored. */
  lemma NginxRestartsAtOnce(email: AuthClass, modules: Modules, store: Store, clock: Clock,
                            fields: map<string, Json>, d: map<string, Json>)
    requires AsksRestart(email, fields, JDict(d)) && Get(d, "service_name") == JStr("nginx")
    ensures Handle(Registry(email), modules, Secret, store, clock, JDict(fields))
            == Outcome(Ok(Reply(JNull, JNull)), store, [Prepare, Auth, Perform])
  {
    var attrs := Prepared(clock, JStr("nginx"));
    assert RestartClass(email).prepare(InitAttrs(clock.ts, clock.rnd), JDict(d)) == Ok(attrs);
    ServiceProperties.Performed(Registry(email), modules, Secret, store, clock, fields, RestartClass(email),
                                attrs, Approved, JNull);
  }

  /** A missing or empty service name, or one that is not admitted, is
      refused as invalid data before any verdict. */
  lemma BadServiceRefused(email: AuthClass, modules: Modules, store: Store, clock: Clock,
                          fields: map<string, Json>, d: map<string, Json>)
    requires AsksRestart(email, fields, JDict(d)) && Get(d, "service_name") !in Services
    ensures var msg := if Truthy(Get(d, "service_name")) then "Unexpected service name" else "Missing service name";
            Handle(Registry(email), modules, Secret, store, clock, JDict(fields))
            == Outcome(Err(ProcessError("Invalid data: " + msg)), store, [Prepare])
  {
    var msg := if Truthy(Get(d, "service_name")) then "Unexpected service name" else "Missing service name";
    assert RestartClass(email).prepare(InitAttrs(clock.ts, clock.rnd), JDict(d)) == Err(ValueError(msg));
    ServiceProperties.InvalidData(Registry(email), modules, Secret, store, clock, fields, RestartClass(email), msg);
  }

  /** Data that is not a dict (None when the request has no data at all)
      has no `get`: the AttributeError is not reported as invalid data. */
  lemma NonDictDataNotWrapped(email: AuthClass, modules: Modules, store: Store, clock: Clock,
                              fields: map<string, Json>, data: Json)
    requires AsksRestart(email, fields, data) && !data.JDict?
    ensures Handle(Registry(email), modules, Secret, store, clock, JDict(fields))
            == Outcome(Err(AttributeError("'" + TypeName(data) + "' object has no attribute 'get'")), store, [Prepare])
  {
    var started := OpNew(RestartClass(email), data, clock);
    assert started == (Err(AttributeError("'" + TypeName(data) + "' object has no attribute 'get'")), [Prepare]);
  }

  /** Restarting supervisor sends the confirmation request and suspends the
      operation under its uid; nothing is performed. */
  lemma SupervisorWaits(email: AuthClass, store: Store, clock: Clock, response: Json, sentAttrs: Attrs,
                        fields: map<string, Json>, d: map<string, Json>)
    requires email.moduleName != "__main__"
    requires AsksRestart(email, fields, JDict(d)) && Get(d, "service_name") == JStr("supervisor")
    requires var name := JStr("supervisor");
             email.request(Confirmation(email, name).attrs, Prepared(clock, name)) == Ok((response, sentAttrs))
    ensures var uid := JStr(Uid(clock.ts, clock.rnd));
            var name := JStr("supervisor");
            var rec := Record(Serialiser.Frozen("__main__", "Restart", Prepared(clock, name)),
                              Serialiser.Frozen(email.moduleName, email.name, Serialiser.PublicAttrs(sentAttrs)));
            Handle(Registry(email), Importable(email), Secret, store, clock, JDict(fields))
            == Outcome(Ok(Reply(uid, response)), store[uid := rec], [Prepare, Auth, AuthRequest, Save])
  {
    var name := JStr("supervisor");
    var attrs := Prepared(clock, name);
    assert RestartClass(email).prepare(InitAttrs(clock.ts, clock.rnd), JDict(d)) == Ok(attrs);
    assert Serialiser.PublicAttrs(attrs) == attrs;
    ServiceProperties.Suspended(Registry(email), Importable(email), Secret, store, clock, fields,
                                RestartClass(email), attrs, Confirmation(email, name), response, sentAttrs);
  }

  /** An e-mail auth whose `process` reads the recipient's answer off the
      resume data, records it as its `state` and leaves the operation alone. */
  ghost predicate Records(email: AuthClass, approves: Json -> bool)
  {
    forall a, o, d :: email.process(a, o, d) == Ok((a["state" := JBool(approves(d))], o))
  }

  /** Resuming a suspended restart with the recipient's answer: a yes
      performs it, a no refuses it; either way the stored record is gone. */
  lemma ConfirmationDecides(email: AuthClass, store: Store, clock: Clock, fields: map<string, Json>, uid: Json,
                            stamp: Clock, name: Json, approves: Json -> bool)
    requires email.moduleName != "__main__" && Records(email, approves)
    requires ServiceProperties.ResumeRequest(Secret, fields, uid)
    requires uid in store && store[uid].op == Serialiser.Frozen("__main__", "Restart", Prepared(stamp, name))
             && store[uid].auth.moduleName == email.moduleName && store[uid].auth.name == email.name
    ensures Handle(Registry(email), Importable(email), Secret, store, clock, JDict(fields))
            == if approves(Get(fields, "data")) then Outcome(Ok(Reply(JNull, JNull)), store - {uid}, [Load, AuthProcess, AuthResponse, Perform])
               else Outcome(Err(ProcessError("Authorisation failed")), store - {uid}, [Load, AuthProcess, AuthResponse])
  {
    var modules := Importable(email);
    var data := Get(fields, "data");
    var answer := approves(data);
    var thawedOp := Thaw(modules, store[uid].op, clock);
    assert thawedOp.Ok? && thawedOp.value.0 == OpKind(RestartClass(email));
    var thawedAuth := Thaw(modules, store[uid].auth, clock);
    assert thawedAuth.Ok? && thawedAuth.value.0 == AuthKind(email);
    var processed := email.process(thawedAuth.value.1, thawedOp.value.1, data);
    assert processed == Ok((thawedAuth.value.1["state" := JBool(answer)], thawedOp.value.1));
    var verdict := DefaultAuthResponse(thawedOp.value.1, AuthObj(email, thawedAuth.value.1["state" := JBool(answer)]));
    assert verdict == Ok(if answer then Approved else Denied);
    var resumed := Resume(modules, Ok(store[uid]), data, clock);
    assert resumed.0 == Ok((Op(RestartClass(email), thawedOp.value.1), if answer then Approved else Denied));
    var s := Start(Registry(email), modules, Secret, store, clock, JDict(fields));
    assert s == Started(resumed.0, store - {uid}, [Load, AuthProcess, AuthResponse]);
  }

  /** The whole story of a supervisor restart: it is suspended, the yes
      performs it, and the same confirmation cannot be used twice. */
  lemma SupervisorConfirmedOnce(email: AuthClass, approves: Json -> bool, store: Store, clocks: seq<Clock>,
                                response: Json, sentAttrs: Attrs, resume: map<string, Json>, first: Outcome, second: Outcome)
    requires email.moduleName != "__main__" && Records(email, approves) && |clocks| == 3
    requires var name := JStr("supervisor");
             email.request(Confirmation(email, name).attrs, Prepared(clocks[0], name)) == Ok((response, sentAttrs))
    requires ServiceProperties.ResumeRequest(Secret, resume, JStr(Uid(clocks[0].ts, clocks[0].rnd)))
    requires approves(Get(resume, "data"))
    requires first == Handle(Registry(email), Importable(email), Secret, store, clocks[0],
                             JDict(RestartRequest(JStr("supervisor"))))
    requires second == Handle(Registry(email), Importable(email), Secret, first.store, clocks[1], JDict(resume))
    ensures var uid := JStr(Uid(clocks[0].ts, clocks[0].rnd));
            && first.reply == Ok(Reply(uid, response)) && first.calls == [Prepare, Auth, AuthRequest, Save]
            && second.reply == Ok(Reply(JNull, JNull)) && second.calls == [Load, AuthProcess, AuthResponse, Perform]
            && second.store == store - {uid}
            && Handle(Registry(email), Importable(email), Secret, second.store, clocks[2], JDict(resume))
               == Outcome(Err(ProcessError("")), store - {uid}, [Load])
  {
    var uid := JStr(Uid(clocks[0].ts, clocks[0].rnd));
    var name := JStr("supervisor");
    RestartRequestAsks(email, name);
    SupervisorWaits(email, store, clocks[0], response, sentAttrs, RestartRequest(name), map["service_name" := name]);
    assert uid in first.store && first.store[uid].op == Serialiser.Frozen("__main__", "Restart", Prepared(clocks[0], name));
    ConfirmationDecides(email, first.store, clocks[1], resume, uid, clocks[0], name, approves);
    assert second.store == first.store - {uid};
    assert first.store == store[uid := first.store[uid]];
    RemoveUpdated(store, uid, first.store[uid]);
    ServiceProperties.ResumeUnknown(Registry(email), Importable(email), Secret, second.store, clocks[2], resume, uid);
  }
}
