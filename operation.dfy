/** regent/backend/operation.py and the Auth contract of
    regent/backend/auth/base.py: how an operation's id is formed, what an
    operation class and an auth class provide, and what the base classes do
    when a subclass does not override them.

    A Python class is modelled by its module and name, its class attributes
    and its methods; a method is a function of the instance attributes (and
    its arguments) that either returns or raises. An instance is its class
    together with its attribute map. */
module Operation {
  import opened Values
  import Serialiser

  // ---------------------------------------------------------------------
  // The uid: '{:0>12}{:0>9}'.format(timestamp, random.randint(0, 999999999))
  // ---------------------------------------------------------------------

  /** The largest number `random.randint(0, 999999999)` returns. */
  const MaxRandom: nat := 999999999

  function Max(a: nat, b: nat): nat
  {
    if a < b then b else a
  }

  predicate IsDigit(c: char)
  {
    '0' <= c <= '9'
  }

  /** `s.replace('.', '')` */
  function RemoveDots(s: string): (r: string)
    ensures '.' !in r
    ensures |r| <= |s|
    ensures forall c :: c in r ==> c in s
    ensures multiset(r) == multiset(s)['.' := 0]
    ensures '.' !in s ==> r == s
  {
    if s == [] then []
    else
      assert s == [s[0]] + s[1..];
      if s[0] == '.' then RemoveDots(s[1..])
      else [s[0]] + RemoveDots(s[1..])
  }

  /** Removing the dots works piecewise, so the characters that remain keep
      their order. */
  lemma {:induction false} RemoveDotsAppend(a: string, b: string)
    ensures RemoveDots(a + b) == RemoveDots(a) + RemoveDots(b)
  {
    if a == [] {
      assert a + b == b;
    } else {
      assert (a + b)[1..] == a[1..] + b;
      RemoveDotsAppend(a[1..], b);
    }
  }

  /** `'{:F>W}'.format(s)`: `s` right-aligned in a field of width `w`, padded with `fill`. */
  function PadLeft(s: string, w: nat, fill: char): (r: string)
    ensures |r| == Max(w, |s|)
    ensures r[|r| - |s|..] == s
    ensures forall i :: 0 <= i < |r| - |s| ==> r[i] == fill
  {
    if |s| >= w then s else seq(w - |s|, _ => fill) + s
  }

  function DigitChar(d: nat): (c: char)
    requires d < 10
    ensures IsDigit(c)
  {
    (d + '0' as int) as char
  }

  function DigitValue(c: char): nat
  {
    if IsDigit(c) then (c as int) - ('0' as int) else 0
  }

  /** `str(n)` for a natural number. */
  function DecimalString(n: nat): (r: string)
    ensures |r| >= 1
    ensures forall i :: 0 <= i < |r| ==> IsDigit(r[i])
  {
    if n < 10 then [DigitChar(n)] else DecimalString(n / 10) + [DigitChar(n % 10)]
  }

  /** `int(s)` for a string of decimal digits. */
  function DigitsValue(s: string): nat
  {
    if s == [] then 0 else DigitsValue(s[..|s| - 1]) * 10 + DigitValue(s[|s| - 1])
  }

  /** Reading back the decimal form of a number gives the number. */
  lemma {:induction false} DecimalRoundTrip(n: nat)
    ensures DigitsValue(DecimalString(n)) == n
  {
    if n >= 10 {
      var s := DecimalString(n / 10) + [DigitChar(n % 10)];
      assert s[..|s| - 1] == DecimalString(n / 10);
      DecimalRoundTrip(n / 10);
    }
  }

  /** A number below 10^k has at most k decimal digits. */
  lemma {:induction false} DecimalLength(n: nat, k: nat, p: nat)
    requires p == Pow10(k) && n < p
    ensures |DecimalString(n)| <= Max(k, 1)
  {
    if n >= 10 {
      assert k >= 2 by { if k < 2 { Pow10Small(k); } }
      DecimalLength(n / 10, k - 1, Pow10(k - 1));
    }
  }

  function Pow10(k: nat): nat
  {
    if k == 0 then 1 else 10 * Pow10(k - 1)
  }

  lemma Pow10Small(k: nat)
    requires k < 2
    ensures Pow10(k) <= 10
  {
  }

  /** Leading zeros do not change the value of a digit string. */
  lemma {:induction false} LeadingZeros(z: string, s: string)
    requires forall i :: 0 <= i < |z| ==> z[i] == '0'
    ensures DigitsValue(z + s) == DigitsValue(s)
  {
    if s == [] {
      assert z + s == z;
      ZerosValue(z);
    } else {
      var t := z + s;
      assert t[..|t| - 1] == z + s[..|s| - 1];
      LeadingZeros(z, s[..|s| - 1]);
    }
  }

  lemma {:induction false} ZerosValue(z: string)
    requires forall i :: 0 <= i < |z| ==> z[i] == '0'
    ensures DigitsValue(z) == 0
  {
    if z != [] {
      ZerosValue(z[..|z| - 1]);
    }
  }

  /** The id `Operation.__init__` gives: the timestamp text `ts` (that is,
      `str(time.time())`) without its dots, left-padded with zeros to 12
      characters, then the random number left-padded with zeros to 9. */
  function Uid(ts: string, rnd: nat): (u: string)
    ensures |u| >= 21 && '.' !in u
  {
    PadLeft(RemoveDots(ts), 12, '0') + PadLeft(DecimalString(rnd), 9, '0')
  }

  /** For a random number in the range `randint` draws from: the uid is
      max(12, len(ts without dots)) + 9 characters long, holds no dot, its
      first part is the padded timestamp, and its last 9 characters are
      digits that read back as the random number. */
  lemma UidShape(ts: string, rnd: nat)
    requires rnd <= MaxRandom
    ensures var u := Uid(ts, rnd);
            && |u| == Max(12, |RemoveDots(ts)|) + 9
            && '.' !in u
            && u[..|u| - 9] == PadLeft(RemoveDots(ts), 12, '0')
            && (forall i :: |u| - 9 <= i < |u| ==> IsDigit(u[i]))
            && DigitsValue(u[|u| - 9..]) == rnd
  {
    var d := DecimalString(rnd);
    assert Pow10(9) == 1000000000;
    DecimalLength(rnd, 9, Pow10(9));
    var t := PadLeft(RemoveDots(ts), 12, '0');
    var r := PadLeft(d, 9, '0');
    var u := t + r;
    assert |r| == 9;
    assert u[..|u| - 9] == t;
    assert u[|u| - 9..] == r;
    assert r == r[..|r| - |d|] + d;
    LeadingZeros(r[..|r| - |d|], d);
    DecimalRoundTrip(rnd);
    assert '.' !in t;
    assert forall i :: 0 <= i < |r| ==> IsDigit(r[i]) by {
      forall i | 0 <= i < |r| ensures IsDigit(r[i]) {
        if i >= |r| - |d| { assert r[i] == d[i - (|r| - |d|)]; }
      }
    }
  }

  /** Two uids drawn with different random numbers never coincide, whatever
      the clock said. */
  lemma UidDeterminesRandom(ts1: string, rnd1: nat, ts2: string, rnd2: nat)
    requires rnd1 <= MaxRandom && rnd2 <= MaxRandom
    requires Uid(ts1, rnd1) == Uid(ts2, rnd2)
    ensures rnd1 == rnd2
  {
    UidShape(ts1, rnd1);
    UidShape(ts2, rnd2);
  }

  // ---------------------------------------------------------------------
  // Classes, instances, verdicts
  // ---------------------------------------------------------------------

  /** An `Auth` subclass: its class attributes (`state` among them), the
      attributes its no-argument constructor sets, `request(op)` producing the
      message for the requester together with the auth object's attributes
      afterwards (what it needs later is kept on it, to be serialised with
      it), and `process(op, auth_data)`, which may change the auth object and
      the operation (new attribute maps). The first `Attrs` argument of each
      is the auth object's own. */
  datatype AuthClass = AuthClass(
    moduleName: string,
    name: string,
    classAttrs: Attrs,
    init: Attrs,
    request: (Attrs, Attrs) -> Result<(Json, Attrs)>,
    process: (Attrs, Attrs, Json) -> Result<(Attrs, Attrs)>)

  datatype AuthObj = AuthObj(cls: AuthClass, attrs: Attrs)

  /** What `auth()` and `auth_response()` return: exactly True, exactly
      False, an `Auth` instance, or any other value. */
  datatype Verdict = Approved | Denied | Pending(auth: AuthObj) | Other

  /** An `Operation` subclass: `prepare(data)` returns the new attributes or
      raises, `auth()`, `auth_response(auth)` and `perform()` return or raise.
      Every subclass keeps `Operation.__init__`. */
  datatype OpClass = OpClass(
    moduleName: string,
    name: string,
    classAttrs: Attrs,
    prepare: (Attrs, Json) -> Result<Attrs>,
    auth: Attrs -> Result<Verdict>,
    authResponse: (Attrs, AuthObj) -> Result<Verdict>,
    perform: Attrs -> Result<Json>)

  datatype Op = Op(cls: OpClass, attrs: Attrs)

  /** A class reachable by name: an operation class or an auth class. */
  datatype PyClass = OpKind(op: OpClass) | AuthKind(auth: AuthClass)

  type Modules = Serialiser.Modules<PyClass>

  /** The user code the core calls, and the storage calls it makes, in the
      order it makes them. */
  datatype Call = Prepare | Auth | AuthRequest | AuthProcess | AuthResponse | Perform | Load | Save

  /** The attributes `Operation.__init__` sets. */
  function InitAttrs(ts: string, rnd: nat): (a: Attrs)
    ensures a.Keys == {"uid"} && a["uid"] == JStr(Uid(ts, rnd))
  {
    map["uid" := JStr(Uid(ts, rnd))]
  }

  /** What a no-argument constructor call `cls()` sets on the new instance. */
  function Construct(c: PyClass, ts: string, rnd: nat): Attrs
  {
    match c
    case OpKind(_) => InitAttrs(ts, rnd)
    case AuthKind(a) => a.init
  }

  /** `getattr(obj, key)`: the instance attribute, else the class attribute. */
  function GetAttr(className: string, attrs: Attrs, classAttrs: Attrs, key: string): (r: Result<Json>)
    ensures r.Ok? <==> key in attrs || key in classAttrs
    ensures key in attrs ==> r == Ok(attrs[key])
    ensures key !in attrs && key in classAttrs ==> r == Ok(classAttrs[key])
  {
    if key in attrs then Ok(attrs[key])
    else if key in classAttrs then Ok(classAttrs[key])
    else Err(AttributeError("'" + className + "' object has no attribute '" + key + "'"))
  }

  /** The verdict a returned value stands for: `is True`, `is False`, or neither. */
  function VerdictOf(j: Json): (v: Verdict)
    ensures v.Approved? <==> j == JBool(true)
    ensures v.Denied? <==> j == JBool(false)
    ensures !v.Pending?
  {
    if j == JBool(true) then Approved
    else if j == JBool(false) then Denied
    else Other
  }

  /** The class attributes of `Auth`: `state = True`. */
  const AuthBaseAttrs: Attrs := map["state" := JBool(true)]

  /** `auth.state`, read as a verdict. */
  function StateVerdict(auth: AuthObj): Result<Verdict>
  {
    match GetAttr(auth.cls.name, auth.attrs, auth.cls.classAttrs, "state")
    case Err(e) => Err(e)
    case Ok(j) => Ok(VerdictOf(j))
  }

  /** `Operation.prepare`: accepts any data and changes nothing. */
  function DefaultPrepare(attrs: Attrs, data: Json): (r: Result<Attrs>)
    ensures r == Ok(attrs)
  {
    Ok(attrs)
  }

  /** `Operation.auth`: True. */
  function DefaultAuth(attrs: Attrs): (r: Result<Verdict>)
    ensures r == Ok(Approved)
  {
    Ok(Approved)
  }

  /** `Operation.auth_response`: `auth.state`. */
  function DefaultAuthResponse(attrs: Attrs, auth: AuthObj): Result<Verdict>
  {
    StateVerdict(auth)
  }

  /** `Operation.perform`: does nothing and returns None. */
  function DefaultPerform(attrs: Attrs): (r: Result<Json>)
    ensures r == Ok(JNull)
  {
    Ok(JNull)
  }

  /** The operation class that overrides nothing. */
  function BaseOperation(moduleName: string, name: string): OpClass
  {
    OpClass(moduleName, name, map[], DefaultPrepare, DefaultAuth, DefaultAuthResponse, DefaultPerform)
  }

  /** The default `auth_response` passes an auth object's verdict through:
      approval when `state` reads True, denial when it reads False (an
      instance attribute overriding the class's); an auth object that nobody
      touched inherits `Auth.state = True` and approves. */
  lemma DefaultAuthResponseFollowsState(attrs: Attrs, auth: AuthObj)
    requires "state" in auth.cls.classAttrs || "state" in auth.attrs
    ensures var r := DefaultAuthResponse(attrs, auth);
            && r.Ok?
            && (r.value.Approved? <==> GetAttr(auth.cls.name, auth.attrs, auth.cls.classAttrs, "state") == Ok(JBool(true)))
            && (r.value.Denied? <==> GetAttr(auth.cls.name, auth.attrs, auth.cls.classAttrs, "state") == Ok(JBool(false)))
            && !r.value.Pending?
            && ("state" !in auth.attrs && auth.cls.classAttrs == AuthBaseAttrs ==> r.value.Approved?)
  {
  }

  /** `name in self.operations` and `self.operations[name]` for the value a
      request gives as its operation name: a registered name yields its
      class; a list or dict cannot be hashed; any other value is unknown. */
  function LookupOp(ops: map<string, OpClass>, name: Json): (r: Result<OpClass>)
    ensures r.Ok? <==> name.JStr? && name.s in ops
    ensures r.Ok? ==> r.value == ops[name.s]
    ensures name.JStr? && name.s !in ops ==> r == Err(ProcessError("Unknown operation"))
    ensures r.Err? && !(name.JList? || name.JDict?) ==> r == Err(ProcessError("Unknown operation"))
    ensures (name.JList? || name.JDict?) ==> r.Err? && r.error.TypeError?
  {
    match name
    case JStr(s) => if s in ops then Ok(ops[s]) else Err(ProcessError("Unknown operation"))
    case JList(_) => Err(TypeError("unhashable type: 'list'"))
    case JDict(_) => Err(TypeError("unhashable type: 'dict'"))
    case _ => Err(ProcessError("Unknown operation"))
  }
}
