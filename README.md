# regent, modelled in Dafny

regent runs privileged operations on behalf of unprivileged callers. A
client sends a JSON request over a Unix socket, and the service answers it.
To start an operation, the request carries the shared secret, an operation
name and data. To resume a suspended operation, it carries the secret, the
operation's uid and the confirmation data.

For each request the service works through a fixed lifecycle:

1. The operation prepares itself from the data.
2. It gives a verdict.
3. The verdict decides what happens next:
   - True (or any value that is not False and not an auth object): the
     operation is performed once.
   - False: the operation is refused.
   - An auth object: the operation is frozen into the store until an
     out-of-band confirmation resumes it.

This project models that core and proves properties of it. The model is
organised in these modules:

- `Values`: JSON values, the exceptions the core raises or lets through, and
  the Python operations whose failure cases matter. These are `in`, `[]`,
  `.get`, truthiness and `str(e)`.
- `Serialiser` (regent/backend/serialiser.py):
  - freezing an object to (module, class, public attributes);
  - thawing it into a fresh instance, with a `setattr` loop proved against
    its specification.
- `Operation` (regent/backend/operation.py, regent/backend/auth/base.py):
  - the uid format;
  - operation and auth classes as records of their methods;
  - the verdict datatype and the base classes' defaults.
- `Storage`: the store of suspended operations, as a class with `save` and
  a destructive `load`.
- `Transport` (regent/socket.py): newline-framed JSON over an OS stream
  socket, including the secret that `Socket.write` adds. It has a class for
  the OS socket and a class for `BaseSocket`/`Socket`.
- `Service` (regent/service/server.py):
  - `Handle` is the specification of `process` on one request, and records
    the user-code and storage calls it makes, in order;
  - the `Service` class holds the registry and the store, and its methods
    are proved against `Handle`;
  - `Listen` serves a finite queue of connections.
- `ServiceProperties`: lemmas about `Handle`. They cover the secret check,
  routing, each verdict, the call order, resume-at-most-once, the store
  invariant and end-to-end serving.
- `Backend` (regent/backend/server.py): the older backend server. It reads a
  4-byte big-endian length header, then the message, and uses `op` + `id`
  routing. It includes the `Server` class with its exact-length read loop.
- `Restart` (examples/backend/restart.py): the restart operation, run through
  the service's lifecycle. nginx restarts at once. supervisor waits for an
  e-mailed confirmation, and that confirmation can be used once.

The operating system, the clock and the random number generator are
parameters, not code in the model:

- A peer is the bytes it has sent plus the outcome of each select-and-recv:
  ready with a size limit, silent (timeout), or broken (socket.error).
- A send or close either always succeeds or always fails on a given
  connection.
- `time.time()` and `random.randint` are a `Clock` value passed to each
  request.
- JSON encoding and decoding are a `Codec` value.
- User code (`prepare`, `auth`, `auth_response`, `perform`, and an auth
  object's `request`/`process`) consists of function-valued fields that
  return a value or raise.

## Model

| member | source | states |
|---|---|---|
| Values.Contains | regent/service/server.py:98 | `key in x` is key membership for a dict and element membership for a list; it raises TypeError exactly for None, bool and int |
| Values.GetItem | regent/service/server.py:98 | `x[key]` succeeds exactly for a dict holding the key and returns its value; a dict without it raises KeyError |
| Values.Get | regent/service/server.py:113 | `d.get(key)` is the value when the key is present and None otherwise |
| Serialiser.GetClassFromName | regent/backend/serialiser.py:10-20 | succeeds exactly when the module defines the class, and returns it; a missing class raises the ValueError "Cannot serialise C - not found in M"; a missing module raises an ImportError |
| Serialiser.PublicAttrs | regent/backend/serialiser.py:41-45 | keeps exactly the attributes whose names do not start with `_`, with their values unchanged |
| Serialiser.Serialise | regent/backend/serialiser.py:24-39 | succeeds exactly for an importable class, giving (module, class, public attributes); otherwise it raises the lookup's error before the attributes are looked at |
| Serialiser.SerialiseAsWritten | regent/backend/serialiser.py:41-46 | as written, serialising always raises: it raises the lookup error or, for an importable class, the TypeError of `json.dumps()` with no argument |
| Serialiser.Restore | regent/backend/serialiser.py:55-56 | after assigning the stored attributes, their keys hold the stored values and every other key keeps the constructor's value |
| Serialiser.Deserialised | regent/backend/serialiser.py:49-57 | an unknown class raises the lookup's error; otherwise the result is that class with the constructor's attributes overwritten by the stored ones |
| Serialiser.Deserialise | regent/backend/serialiser.py:49-57 | the `setattr` loop computes exactly `Deserialised` |
| Serialiser.RoundTrip | regent/backend/serialiser.py:24-57 | thawing what was frozen gives back the class and every non-underscore attribute with its value; an underscore attribute takes the constructor's value |
| Operation.RemoveDots | regent/backend/operation.py:10 | the result holds no '.'; every other character occurs in it exactly as often as in the input; a string without '.' is unchanged |
| Operation.RemoveDotsAppend | regent/backend/operation.py:10 | removing the dots works piecewise over a concatenation, so the remaining characters keep their order |
| Operation.PadLeft | regent/backend/operation.py:11-14 | `'{:0>w}'` right-aligns: length max(w, len s), ends with s, and every other character is the fill |
| Operation.DecimalString | regent/backend/operation.py:13 | the decimal text of a number is a non-empty string of digits |
| Operation.DecimalRoundTrip | regent/backend/operation.py:13 | reading the decimal text back gives the number |
| Operation.DecimalLength | regent/backend/operation.py:13 | a number below 10^k has at most k digits, so a random number up to 999999999 fits the 9-character field |
| Operation.UidShape | regent/backend/operation.py:9-14 | the uid has length max(12, len(ts without dots)) + 9 and no '.'; it starts with the padded timestamp, and its last 9 characters are digits that read back as the random number |
| Operation.UidDeterminesRandom | regent/backend/operation.py:11-14 | two uids from different random numbers differ, whatever the timestamps |
| Operation.Uid | regent/backend/operation.py:9-14 | a uid is at least 21 characters long (12 of timestamp, 9 of random number) and holds no '.' |
| Operation.InitAttrs | regent/backend/operation.py:9-14 | `Operation.__init__` sets exactly one attribute, `uid`, to the uid of the clock reading |
| Operation.DefaultPrepare | regent/backend/operation.py:16-23 | the base `prepare` accepts any data and changes no attribute |
| Operation.DefaultAuth | regent/backend/operation.py:25-34 | the base `auth` approves |
| Operation.DefaultPerform | regent/backend/operation.py:54-58 | the base `perform` returns None |
| Operation.GetAttr | regent/service/server.py:138-140 | `getattr` returns the instance attribute, else the class attribute, else raises AttributeError |
| Operation.VerdictOf | regent/service/server.py:124-131 | a returned value is approval exactly when it is True and denial exactly when it is False; it is never an auth object |
| Operation.DefaultAuthResponseFollowsState | regent/backend/operation.py:36-52 | the default `auth_response` approves exactly when `auth.state` is True and denies exactly when it is False; an untouched auth object inherits `state = True` and approves |
| Operation.LookupOp | regent/service/server.py:110-111 | a registered name gives its class; any other string gives "Unknown operation"; a list or dict raises TypeError (unhashable) |
| Storage.Memory.constructor | regent/service/server.py:44-45 | a new store is empty |
| Storage.Memory.Save | regent/service/server.py:138 | the record is stored under the uid, replacing any earlier one |
| Storage.Memory.Load | regent/service/server.py:175-178 | a stored uid hands back its record and removes it; an unknown uid raises DoesNotExist and changes nothing |
| Transport.Wait | regent/socket.py:37-51 | received data comes from the front of the stream and is removed from it; its size is at most what was asked; an empty chunk means the stream is exhausted |
| Transport.Conn.constructor | regent/socket.py:96 | an accepted connection starts with nothing sent and is open |
| Transport.Conn.SelectRecv | regent/socket.py:37-47 | one select-and-recv is `Wait` on the peer |
| Transport.Conn.Send | regent/socket.py:29 | a successful send appends the bytes; a failing one appends nothing |
| Transport.Conn.Close | regent/socket.py:65 | a successful close closes the connection |
| Transport.DecodeFrame | regent/socket.py:54-61 | a read error passes through; a complete frame that decodes is the value; one that does not raises the ProcessError "Invalid message, could not decode JSON: ..." |
| Transport.Outgoing | regent/socket.py:105-110 | a `Socket` sends every key of the data with its value, plus `secret`; a `secret` inside the data overrides the configured one; a `BaseSocket` sends the data unchanged |
| Transport.Socket.constructor | regent/socket.py:71-75 | the socket keeps its secret and timeout |
| Transport.Socket.Accept | regent/socket.py:92-97 | an accepted connection is a fresh `BaseSocket` with no secret and the same timeout |
| Transport.Socket.Read | regent/socket.py:33-61 | the read loop consumes exactly what `ReadLine` consumes and returns `DecodeFrame` of its result |
| Transport.Socket.Write | regent/socket.py:26-31 | a write sends the JSON text of the outgoing dict and one newline, or raises SocketError "Could not write to client" and sends nothing |
| Transport.Socket.Close | regent/socket.py:63-67 | a failing close raises SocketError "Client already disconnected" |
| Transport.ReadLineTakesPrefix | regent/socket.py:34-52 | a read takes bytes only from the front of the stream; a successful one returns the old buffer followed by exactly the bytes taken |
| Transport.ReadLineErrors | regent/socket.py:41-51 | a read fails only with "Failed waiting for data", "Could not read from client" or "Unexpected end of data"; the last means everything sent was read |
| Transport.InteriorNewlineDoesNotEndRead | regent/socket.py:35 | a chunk with a newline inside but not at its end does not end the read, which then times out |
| Transport.ReadLineWholeMessage | regent/socket.py:34-52 | when the peer sends one message and its newline, the read returns all of it, however it is chunked, and leaves nothing unread |
| Transport.ReadLine | regent/socket.py:33-52 | a read that succeeds returns a buffer ending with a newline |
| Transport.Framed | regent/socket.py:26-29 | what `write` sends is the JSON text followed by one newline |
| Transport.WriteThenRead | regent/socket.py:26-61 | what `write` sends, `read` at the other end decodes back to the same value |
| Service.CheckSecret | regent/service/server.py:97-105 | passes exactly a dict whose `secret` equals the service's; a dict that fails gets "Permission denied"; other values fail with "Permission denied" or Python's TypeError |
| Service.OpNew | regent/service/server.py:146-164 | prepare is called, then auth; a ValueError from prepare becomes "Invalid data: msg" (other exceptions pass through) and auth is not called |
| Service.Thaw | regent/service/server.py:180-187 | thawing is `Deserialised` with the current clock; its ValueError becomes "Could not deserialise operation: msg"; any other error (the ImportError of a missing module) passes through unchanged |
| Service.Resume | regent/service/server.py:166-193 | load, then `process`, then `auth_response`, each possibly cut short; an unknown uid raises a ProcessError with no message after the load alone; a thaw error of the operation, then of the auth object, is the result after the load alone; `process` is called only on an auth object, with its thawed attributes, the operation's thawed attributes and the request's data, and its exception is the result; an object that is not an operation fails on `auth_response` with AttributeError; otherwise the result is the operation with the attributes `process` left and the verdict (or exception) of `auth_response` on them and the processed auth object |
| Service.Conclude | regent/service/server.py:123-144 | False refuses with no call; an auth object sends its request and, unless that raises, saves under the operation's uid the operation's public attributes and the auth object's public attributes as the request left them, replying with the request's message; anything else performs once, and the reply is perform's result |
| Service.Performed | regent/service/server.py:142-144 | `perform` is called once; its result is the reply data, its exception the failure |
| Service.Finish | regent/service/server.py:138-144 | a suspension stores the record and replies (uid, message); a performed operation replies (None, data); nothing else changes the store |
| Service.Start | regent/service/server.py:97-121 | the calls made before a verdict; a load removes the requested uid from the store; nothing else touches it |
| Service.Handle | regent/service/server.py:91-144 | the calls before a verdict come first; an error before a verdict is the reply, with the store the routing left; a request that calls nothing is refused and changes nothing |
| Service.Serve | regent/service/server.py:57-89 | one connection: it ends closed exactly when the close succeeds; a failing send sends nothing; otherwise the one newline-terminated frame sent is `{'error': str(e)}` for a frame that cannot be read or decoded, and the reply message of `Handle` for one that can; a request that does not read or decode changes nothing, and one that does has the store and calls of `Handle` |
| Service.SuccessReply | regent/service/server.py:63-69 | a success message has exactly the keys success=True, uid and data |
| Service.ErrorReply | regent/service/server.py:74-79 | an error message has the single key `error`, holding `str(e)` |
| Service.Service.constructor | regent/service/server.py:30-47 | a new service has no operations, an empty store and a socket with its secret and timeout |
| Service.Service.Register | regent/service/server.py:195-196 | registering a name adds or replaces exactly that entry |
| Service.Service.Begin | regent/service/server.py:97-121 | the secret check and routing, through the store, compute exactly `Start` |
| Service.Service.Act | regent/service/server.py:123-144 | acting on the verdict, through the store, computes exactly `Conclude` then `Finish` |
| Service.Service.Process | regent/service/server.py:91-144 | `process` returns the reply of `Handle`, leaves the store `Handle` leaves and makes its calls |
| Service.Service.HandleConnection | regent/service/server.py:55-89 | one connection: sends what `Serve` sends, leaves the store `Serve` leaves, and swallows a failing error write and a failing close |
| Service.Service.AcceptAndServe | regent/service/server.py:56-89 | a fresh connection is accepted and served as `Serve` says |
| Service.Service.Listen | regent/service/server.py:49-89 | a queue of connections is served in order, each seeing the store the previous one left |
| ServiceProperties.PermissionDenied | regent/service/server.py:97-105 | a dict without the right secret gets "Permission denied", with no calls and the store unchanged |
| ServiceProperties.NothingWithoutSecret | regent/service/server.py:97-105 | any request that is not a dict with the right secret gets an error, makes no call and leaves the store unchanged |
| ServiceProperties.OpWins | regent/service/server.py:107-118 | when `op` is present, `uid` is ignored |
| ServiceProperties.NoRoute | regent/service/server.py:120-121 | with neither `op` nor `uid`, the reply is "Invalid message: operation not found" and nothing happens |
| ServiceProperties.UnknownOperation | regent/service/server.py:110-111 | an unregistered name gets "Unknown operation" before anything is constructed; the store is unchanged |
| ServiceProperties.InvalidData | regent/service/server.py:156-159 | a ValueError from prepare gets "Invalid data: msg", after prepare alone |
| ServiceProperties.Refused | regent/service/server.py:128-129 | a False verdict gets "Authorisation failed" with no perform and no save |
| ServiceProperties.Performed | regent/service/server.py:142-144 | a True or other non-auth verdict performs exactly once and replies (None, result); the store is unchanged |
| ServiceProperties.BaseOperationRuns | regent/backend/operation.py:16-58 | an operation that overrides nothing accepts any data, approves itself, and is performed once with reply data None |
| ServiceProperties.Suspended | regent/service/server.py:131-140 | an auth verdict saves (frozen op, frozen auth with the attributes its request left) under the op's uid, replies (uid, message of auth.request(op)) and never performs |
| ServiceProperties.CallOrder | regent/service/server.py:91-193 | every request's calls form one of the lifecycles; perform happens at most once, last, and never in the same request as a save |
| ServiceProperties.PerformExactlyWhenAllowed | regent/service/server.py:123-144 | perform is called exactly when a verdict was reached that is neither False nor an auth object |
| ServiceProperties.ResumeUnknown | regent/service/server.py:174-178 | resuming an unknown uid raises a ProcessError with no message and changes nothing |
| ServiceProperties.StartResumes | regent/service/server.py:115-118 | a resume request for a stored uid removes that record and resumes it with the request's `data` |
| ServiceProperties.ResumeNotDeserialised | regent/service/server.py:180-187 | a record whose operation or auth class cannot be found is consumed after the load alone; a module without the class gives "Could not deserialise operation: Cannot serialise C - not found in M", a missing module's ImportError passes through |
| ServiceProperties.ResumeVerdict | regent/service/server.py:181-193 | for every record that thaws: `process` gets the thawed auth and operation attributes and the request's data, `auth_response` rules on what it left, and that verdict is acted on as for a new operation, with the record removed |
| ServiceProperties.ResumeKeepsUid | regent/service/server.py:180-193 | a resumed operation keeps its stored uid when the auth object's `process` leaves it alone |
| ServiceProperties.ResuspendedUnderOldUid | regent/service/server.py:131-140 | a resumed operation that is suspended again is saved under the uid it was stored with, not a new one, when the store is keyed by uid and `process` leaves the uid alone |
| ServiceProperties.ResumeConsumes | regent/service/server.py:174-193 | resuming a stored uid removes its record whatever happens next; the only record added is the new suspension |
| ServiceProperties.HandleStore | regent/service/server.py:131-140 | after the verdict the store changes only by one save under the reply's uid |
| ServiceProperties.SecondResumeFails | regent/service/server.py:174-178 | a confirmation cannot be replayed: unless the first resume suspended the operation again under the same uid, a second resume fails |
| ServiceProperties.ThawKeepsUid | regent/backend/serialiser.py:49-57 | a thawed operation keeps the uid it was stored with; only a record without a uid gets the fresh one |
| ServiceProperties.KeyedPreserved | regent/service/server.py:136-138 | processing keeps every stored record under its own operation's uid |
| ServiceProperties.ReplyRoundTrip | regent/service/server.py:63-79 | a client tells success from failure and recovers the uid and data, or the error text; replies never carry the secret |
| ServiceProperties.ClientRequestsRoute | regent/client/client.py:17-37 | the requests a client builds pass the secret check and route to a new operation or a resume |
| ServiceProperties.ServeEndToEnd | regent/service/server.py:55-89 | a request that arrives whole is processed as `Handle` says, and the reply bytes decode to the reply message |
| Backend.Unpack | regent/backend/server.py:87 | `struct.unpack('>I')` succeeds exactly on 4 bytes and gives a value below 2^32 |
| Backend.LengthRoundTrip | regent/backend/server.py:87 | every length below 2^32 packed big-endian unpacks to itself |
| Backend.HeaderRoundTrip | regent/backend/server.py:87 | every 4-byte header is the packing of the length it unpacks to |
| Backend.ReadExactAsWritten | regent/backend/server.py:121-126 | as written, any read of at least one byte raises NameError for `settings`, and nothing is read |
| Backend.ReadExactTakesExactly | regent/backend/server.py:117-137 | a successful read returns exactly the next n bytes of the stream and leaves the rest |
| Backend.ReadExactLeavesSuffix | regent/backend/server.py:121-137 | whatever happens, a read takes bytes only from the front |
| Backend.ReadExactErrors | regent/backend/server.py:129-135 | a read fails only with "Failed waiting for data", "Unexpected end of data" or the socket.error of `recv` |
| Backend.ReadExactCompletes | regent/backend/server.py:121-137 | when n bytes are available and every wait succeeds, the read completes, whatever the chunk sizes |
| Backend.ReadExact | regent/backend/server.py:117-137 | a read that succeeds returns at least n bytes, beginning with what was already read |
| Backend.HeaderNeverEmpty | regent/backend/server.py:84-86 | a successful header read has 4 bytes, so "Invalid message length" is unreachable |
| Backend.CheckSecretAsWritten | regent/backend/server.py:97-104 | as written, a request passes exactly when it is a dict, `secret` is present and `socket` holds the secret; a dict without `secret`, or whose `socket` holds something else, gets the NameError for `time`; a dict with `secret` but no `socket` gets KeyError; None, bool and int get TypeError; never "Permission denied" |
| Backend.SecretCheckAsWrittenIsWrong | regent/backend/server.py:97-104 | a wrong `secret` with `socket` set to the secret passes as written but is refused by the corrected check; an empty request gets a NameError instead of "Permission denied" |
| Backend.Start | regent/backend/server.py:145-221 | a dict with `id` resumes the record under `data['id']`, which is removed from the store (an unknown id raises a ProcessError after the load alone); a dict without `id` prepares `data['data']` as `OpNew` does, or raises KeyError for a missing `data`, and leaves the store untouched; data that is not a dict raises before any call |
| Backend.Conclude | regent/backend/server.py:151-172 | False refuses; an auth object saves under `op.id` the operation's public attributes and the auth object's public attributes as its request left them, and replies with the request's message; anything else performs once and replies with `op.complete_msg` |
| Backend.Finish | regent/backend/server.py:163-172 | a suspension stores the record under its id; nothing else changes the store |
| Backend.Route | regent/backend/server.py:96-113 | passes only a request with the right `secret` and a registered `op`; it gives the secret error, "Invalid message: operation not found" or "Unknown operation" otherwise, and hands on `request.get('data')` |
| Backend.Handle | regent/backend/server.py:95-115 | a routing error is the reply, with no call and the store unchanged; a request that calls nothing is refused and changes nothing |
| Backend.RequestOutcome | regent/backend/server.py:139-172 | without a save the store is what the routing left; a request that calls nothing is refused and changes nothing |
| Backend.AfterStart | regent/backend/server.py:151-172 | the calls before the verdict come first; an error before the verdict is the reply; without a save the store is unchanged; perform and save never happen in the same request |
| Backend.Completed | regent/backend/server.py:170-172 | `perform` is called once; the reply is `op.complete_msg` when perform and the attribute read both succeed, otherwise perform's exception comes first |
| Backend.ReadRequest | regent/backend/server.py:83-94 | a failing header read is the reply; the "Invalid message length" error is never raised |
| Backend.Serve | regent/backend/server.py:60-75 | one connection: it ends closed exactly when the close succeeds; a failing send sends nothing, and otherwise the JSON text sent is `{'error': str(e)}` for a request that cannot be read and `RunReply` of `Handle`'s reply for one that can; a request that does not read changes nothing, and one that does has the store and calls of `Handle` |
| Backend.DecodeBody | regent/backend/server.py:90-94 | a read error passes through; a body that decodes is the request; one that does not raises "Invalid message: could not decode JSON"; the peer is as the read left it |
| Backend.NothingWithoutSecret | regent/backend/server.py:96-104 | without the secret nothing is prepared, loaded, performed or stored, and a dict gets "Permission denied" |
| Backend.PerformedReplies | regent/backend/server.py:170-172 | an approved operation is performed once and the reply is its `complete_msg`; nothing is stored |
| Backend.SuspendedUnderId | regent/backend/server.py:159-168 | a pending operation is saved under its `id` and the reply is the auth request's message; nothing is performed |
| Backend.ReadExactFramed | regent/backend/server.py:117-137 | reading n bytes when the stream holds them returns them and leaves the rest |
| Backend.ReceiveFramed | regent/backend/server.py:83-94 | a message sent with its header is read whole, decoded (or refused as invalid JSON), and nothing more is read |
| Backend.ServeFramed | regent/backend/server.py:60-94 | `run` end to end: a request sent with its length header is handled and answered with `{'success': msg}` or `{'error': str(e)}` for its outcome; a body that is not JSON is answered with the decoding error and changes nothing |
| Backend.RunReply | regent/backend/server.py:62-67 | the reply is `{'success': msg}` or `{'error': str(e)}` |
| Backend.ReadAsWrittenAlwaysFails | regent/backend/server.py:117-126 | as written, even a well-framed message is answered with the `settings` NameError and nothing is read, while the corrected read decodes it |
| Backend.Server.constructor | regent/backend/server.py:28-40 | a new server has no operations and an empty store |
| Backend.Server.Register | regent/backend/server.py:223-224 | registering a name adds or replaces exactly that entry |
| Backend.Server.Read | regent/backend/server.py:117-137 | the read loop returns and consumes exactly what `ReadExact` specifies |
| Backend.Server.Receive | regent/backend/server.py:83-94 | reading the header and the body computes exactly `ReadRequest` |
| Backend.Server.Process | regent/backend/server.py:96-115 | processing a decoded request replies, changes the store and calls as `Handle` says |
| Backend.Server.ProcessRequest | regent/backend/server.py:139-172 | `process_request` replies, changes the store and calls as `RequestOutcome` says |
| Backend.Server.Begin | regent/backend/server.py:145-149 | the routing to resume or new operation, through the store, computes exactly `Start` |
| Backend.Server.Act | regent/backend/server.py:151-172 | acting on the verdict, through the store, computes exactly `Conclude` then `Finish` |
| Backend.Server.HandleConnection | regent/backend/server.py:60-75 | one connection sends what `Serve` sends and leaves the store it leaves; a failing error send and a failing close are swallowed |
| Backend.Server.AcceptAndServe | regent/backend/server.py:60-75 | a fresh connection is accepted and served as `Serve` says |
| Backend.Server.Run | regent/backend/server.py:55-75 | a queue of connections is served in order, each seeing the store the previous one left |
| Restart.RestartPrepare | examples/backend/restart.py:10-21 | a missing or empty name raises "Missing service name"; a name other than nginx or supervisor raises "Unexpected service name"; non-dict data raises AttributeError; on success only `service_name` is set |
| Restart.RestartAuth | examples/backend/restart.py:23-41 | True exactly for nginx; otherwise an e-mail confirmation to me@example.com |
| Restart.RestartClass | examples/backend/restart.py:9-60 | the registered `Restart` class lives in `__main__`, prepares with `RestartPrepare`, asks `RestartAuth`, and its `perform` returns None |
| Restart.RestartRequestAsks | examples/backend/restart.py:63-67 | a client request to the script's service, with its secret, routes to a new restart |
| Restart.NginxRestartsAtOnce | examples/backend/restart.py:33-34 | restarting nginx is performed at once and nothing is stored |
| Restart.BadServiceRefused | examples/backend/restart.py:14-19 | a missing or unexpected service name is refused as invalid data before any verdict |
| Restart.NonDictDataNotWrapped | examples/backend/restart.py:14 | data that is not a dict (None when the request has none) raises AttributeError, which is not reported as invalid data |
| Restart.SupervisorWaits | examples/backend/restart.py:36-41 | restarting supervisor sends the confirmation and stores the restart, with the e-mail auth object as its request left it, under the restart's uid; nothing is performed |
| Restart.ConfirmationDecides | examples/backend/restart.py:43-54 | for an e-mail auth that reads the answer off the resume data: data it approves performs the restart and any other data refuses it; either way the record is gone |
| Restart.SupervisorConfirmedOnce | examples/backend/restart.py:23-54 | a supervisor restart is suspended, confirmation data the e-mail auth approves performs it, and replaying the confirmation fails |

## Left out

- Socket system calls are left out: `socket.socket`, `bind`, `os.remove`, `os.chmod`, `listen`, `accept` and `connect` (regent/socket.py:71-103; regent/backend/server.py:42-53, 60). Their only effect is on the operating system. `select` and `recv` appear only through the outcomes a `Peer` is given.
- `time.sleep(1)` after a failed secret check is left out. It is a delay with no other effect.
- JSON encoding and decoding are a `Codec` parameter, not a model of the `json` module. Floating-point JSON numbers are not modelled.
- Service.Conclude and Backend.Conclude: an auth object's `request` returns its message together with the auth object's attributes afterwards, and those are what is frozen. It does not change the operation's attributes, and `perform` changes none either: only `prepare` and an auth object's `process` return new operation attributes.
- Service.Conclude and Backend.Conclude treat every operation and auth class as `Serialisable`. In the source, `Operation` (regent/backend/operation.py:8) and `Auth` (regent/backend/auth/base.py:1) derive from `object`. So `op.serialise()` and `auth.serialise()` (regent/backend/server.py:164-165) would raise AttributeError for a class that does not also inherit `Serialisable` (regent/backend/serialiser.py:23). That AttributeError path is not modelled, and Backend.SuspendedUnderId holds only under this assumption.
- Operation.Construct: deserialising calls `cls()` with no arguments, and in the model that construction cannot fail. An auth class whose `__init__` needs arguments, such as the e-mail auth built with `to=...` at examples/backend/restart.py:37-41, would raise TypeError there.
- Perform side effects are left out: `subprocess.call` in the restart example and e-mail sending by auth objects. `perform` is a function of the operation's attributes.
- Restart.RestartClass uses the default `auth_response`. The model assumes that the `from .myproject import send_admin_email` at examples/backend/restart.py:51 succeeds. As written the script runs as `__main__`, so that relative import raises before `return auth.state`, and the confirmation path never performs. The e-mail it sends is not modelled either.
- Restart.Str: `str()` of a list or dict is abbreviated. It only feeds the body of the confirmation e-mail.
- The wording of messages raised by Python's runtime (TypeError, AttributeError, NameError, struct.error, ImportError) is approximate. The messages the repository writes itself are exact.
- Storage.Memory: regent/service/server.py:42-45 builds its store from its own `storage` module, which is not part of this model. The model assumes that `storage.Memory` saves by overwriting and that `load` removes and returns a record or raises DoesNotExist. `storage.Database` (chosen when a `db_path` is given) is not modelled.
- regent/service/server.py imports its own `.serialiser` and `.auth` modules (lines 25-26), which are not part of this model. Service.Thaw and Service.Conclude use the backend's serialiser (regent/backend/serialiser.py) with its `json.dumps()` defect corrected, and `isinstance(auth, Auth)` is the Pending verdict.
- In regent/backend/server.py, `Auth`, `deserialise` and `db` are used but never imported. In the model:
  - `isinstance(auth, Auth)` is the Pending verdict;
  - `deserialise(frozen)` is `Thaw` of a frozen triple;
  - `except db.DoesNotExist` catches the store's DoesNotExist.
- Backend.Server and Backend.Conclude use the service's `save`/`load` store for the backend's `save_frozen` and `load`.
- The backend reads `op.id` and `op.complete_msg`, which the operation base class never sets. They are read with `getattr`, so an operation that lacks them raises AttributeError.
- Backend.Server.HandleConnection, Transport.Conn.Send and Transport.Socket.Write model `send` as sending all bytes or raising. regent/socket.py:29 and regent/backend/server.py:63, 67 call `send`, not `sendall`, so a partial send could drop the end of a message, including its newline, and the reader would then time out. This is not modelled.
- Transport.Socket.Accept cannot fail. At regent/service/server.py:56 `accept` is called outside the `try`, so an exception from it would end `listen`. This is not modelled.
- Concurrency and connection queueing (`listen(SOCKET_PENDING)`) are left out. Connections are served one after another, as the loops do.
- The endless loops `while 1` (regent/service/server.py:55, regent/backend/server.py:59) are modelled over a finite queue of incoming connections.
- regent/client/client.py, regent/frontend/client.py, regent/debug.py, the whoami and firewall examples and setup.py are not part of this model. Only the client's request shapes are used, in ServiceProperties.ClientRequestsRoute.
- Bytes on the wire are byte strings, as in Python 2, which the backend server is written for. Text and bytes are not distinguished.
- Where the documentation and the code disagree, the model follows the code. regent/backend/auth/base.py:17-18 and 32-33 say a resumed operation gets a new id. The serialiser keeps `uid`, which has no leading underscore, so a resumed operation keeps its old id. See ServiceProperties.ThawKeepsUid.

## Findings

| source | as written | input that shows it | evidently intended | confidence | as-written member | corrected member |
|---|---|---|---|---|---|---|
| regent/backend/serialiser.py:46 | `serialise_attrs` builds the attribute map, then returns `json.dumps()` with no argument, which raises TypeError | a direct call `Serialisable().serialise()` on any instance whose class is importable from its module | return the attribute map (or its JSON) so that it can be stored and thawed | high; not executed | Serialiser.SerialiseAsWritten | Serialiser.Serialise, Serialiser.RoundTrip |
| regent/backend/server.py:97 | tests that `secret` is present but compares `request['socket']` with the secret | `{"secret": "wrong", "socket": <secret>}` passes | compare `request['secret']` | high; not executed | Backend.CheckSecretAsWritten, Backend.SecretCheckAsWrittenIsWrong | Service.CheckSecret |
| regent/backend/server.py:103 | refusing calls `time.sleep`, but `time` is never imported, so a NameError replaces "Permission denied" | `{}` | import `time` and raise "Permission denied" | high; not executed | Backend.CheckSecretAsWritten, Backend.SecretCheckAsWrittenIsWrong | Service.CheckSecret |
| regent/backend/server.py:125 | `read` names `settings.SOCKET_TIMEOUT`, but `settings` is never imported, so every read of at least one byte raises NameError | any connection, e.g. a 4-byte header followed by a valid JSON body | import the socket timeout setting | high; not executed | Backend.ReadExactAsWritten, Backend.ReadAsWrittenAlwaysFails | Backend.ReadExact, Backend.ReadExactTakesExactly |
