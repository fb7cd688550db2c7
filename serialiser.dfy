/** regent/backend/serialiser.py: freezing an object to
    (module name, class name, attributes) and thawing it into a fresh
    instance. Importing a class by name is a finite table of the classes
    each importable module defines; the kind of class is a type parameter,
    so this module knows nothing about operations. */
module Serialiser {
  import opened Values

  /** What `serialise` returns: `(module_name, class_name, attrs)`. */
  datatype Frozen = Frozen(moduleName: string, name: string, attrs: Attrs)

  /** The classes reachable through `import_module`: module name to class name to class. */
  type Modules<C> = map<string, map<string, C>>

  /** `get_class_from_name`: an unknown module fails inside `import_module`
      (an ImportError, which is not a ValueError); a module without the class
      fails with the ValueError the source writes. */
  function GetClassFromName<C>(modules: Modules<C>, moduleName: string, name: string): (r: Result<C>)
    ensures r.Ok? <==> moduleName in modules && name in modules[moduleName]
    ensures r.Ok? ==> r.value == modules[moduleName][name]
    ensures moduleName in modules && name !in modules[moduleName] ==>
              r == Err(ValueError("Cannot serialise " + name + " - not found in " + moduleName))
    ensures moduleName !in modules ==> r.Err? && r.error.ImportError?
  {
    if moduleName !in modules then Err(ImportError("No module named " + moduleName))
    else if name !in modules[moduleName] then
      Err(ValueError("Cannot serialise " + name + " - not found in " + moduleName))
    else Ok(modules[moduleName][name])
  }

  /** An attribute name that `serialise_attrs` leaves out. */
  predicate Internal(key: string)
  {
    |key| > 0 && key[0] == '_'
  }

  /** The attribute map `serialise_attrs` builds: exactly the attributes whose
      names do not start with an underscore, with their values unchanged. */
  function PublicAttrs(attrs: Attrs): (r: Attrs)
    ensures forall k :: k in r <==> k in attrs && !Internal(k)
    ensures forall k :: k in r ==> r[k] == attrs[k]
  {
    map k | k in attrs && !Internal(k) :: attrs[k]
  }

  /** `Serialisable.serialise`, with `serialise_attrs` returning the map it
      builds: the class must be importable under its own module and name,
      which is checked before the attributes are looked at. */
  function Serialise<C>(modules: Modules<C>, moduleName: string, name: string, attrs: Attrs): (r: Result<Frozen>)
    ensures r.Ok? <==> moduleName in modules && name in modules[moduleName]
    ensures r.Ok? ==> r.value.moduleName == moduleName && r.value.name == name
    ensures r.Ok? ==> forall k :: k in r.value.attrs <==> k in attrs && !Internal(k)
    ensures r.Ok? ==> forall k :: k in r.value.attrs ==> r.value.attrs[k] == attrs[k]
    ensures r.Err? ==> r.error == GetClassFromName(modules, moduleName, name).error
  {
    match GetClassFromName(modules, moduleName, name)
    case Err(e) => Err(e)
    case Ok(_) => Ok(Frozen(moduleName, name, PublicAttrs(attrs)))
  }

  /** The error `json.dumps()` raises when it is called with no argument. */
  const DumpsWithoutArgument: Error := TypeError("dumps() missing 1 required positional argument: 'obj'")

  /** `Serialisable.serialise` exactly as written: `serialise_attrs` builds the
      attribute map and then returns `json.dumps()` with no argument, which
      raises, so no object can ever be serialised. */
  function SerialiseAsWritten<C>(modules: Modules<C>, moduleName: string, name: string, attrs: Attrs): (r: Result<Frozen>)
    ensures r.Err?
    ensures moduleName in modules && name in modules[moduleName] ==> r.error == DumpsWithoutArgument
    ensures !(moduleName in modules && name in modules[moduleName]) ==>
              r.error == GetClassFromName(modules, moduleName, name).error
  {
    match GetClassFromName(modules, moduleName, name)
    case Err(e) => Err(e)
    case Ok(_) => var _ := PublicAttrs(attrs); Err(DumpsWithoutArgument)
  }

  /** The attributes of a fresh instance after `setattr` of every stored
      attribute: stored keys hold their stored values, every other key keeps
      what the no-argument constructor set. */
  function Restore(init: Attrs, stored: Attrs): (r: Attrs)
    ensures r.Keys == init.Keys + stored.Keys
    ensures forall k :: k in stored ==> r[k] == stored[k]
    ensures forall k :: k in init && k !in stored ==> r[k] == init[k]
  {
    init + stored
  }

  /** What `deserialise(module_name, class_name, attrs)` produces: the class
      and the attributes of the new instance; `construct` gives the attributes
      each class's no-argument constructor sets. */
  function Deserialised<C>(modules: Modules<C>, construct: C -> Attrs, frozen: Frozen): (r: Result<(C, Attrs)>)
    ensures r.Ok? <==> frozen.moduleName in modules && frozen.name in modules[frozen.moduleName]
    ensures r.Err? ==> r.error == GetClassFromName(modules, frozen.moduleName, frozen.name).error
    ensures r.Ok? ==> r.value.0 == modules[frozen.moduleName][frozen.name]
    ensures r.Ok? ==> r.value.1.Keys == construct(r.value.0).Keys + frozen.attrs.Keys
    ensures r.Ok? ==> forall k :: k in frozen.attrs ==> r.value.1[k] == frozen.attrs[k]
    ensures r.Ok? ==> forall k :: k in construct(r.value.0) && k !in frozen.attrs ==> r.value.1[k] == construct(r.value.0)[k]
  {
    match GetClassFromName(modules, frozen.moduleName, frozen.name)
    case Err(e) => Err(e)
    case Ok(cls) => Ok((cls, Restore(construct(cls), frozen.attrs)))
  }

  /** `deserialise`: look the class up, construct it, then assign the stored
      attributes one `setattr` at a time. */
  method Deserialise<C>(modules: Modules<C>, construct: C -> Attrs, frozen: Frozen) returns (r: Result<(C, Attrs)>)
    ensures r == Deserialised(modules, construct, frozen)
  {
    var lookup := GetClassFromName(modules, frozen.moduleName, frozen.name);
    if lookup.Err? {
      return Err(lookup.error);
    }
    var cls := lookup.value;
    var obj := construct(cls);
    var todo := frozen.attrs.Keys;
    while todo != {}
      invariant todo <= frozen.attrs.Keys
      invariant obj.Keys == construct(cls).Keys + (frozen.attrs.Keys - todo)
      invariant forall k :: k in frozen.attrs && k !in todo ==> obj[k] == frozen.attrs[k]
      invariant forall k :: k in construct(cls) && (k !in frozen.attrs || k in todo) ==> obj[k] == construct(cls)[k]
      decreases todo
    {
      var key :| key in todo;
      obj := obj[key := frozen.attrs[key]];
      todo := todo - {key};
    }
    assert obj == Restore(construct(cls), frozen.attrs);
    r := Ok((cls, obj));
  }

  /** Freezing and thawing an importable object gives back every attribute
      that does not start with an underscore, with its value; an attribute
      that does start with one takes the value the constructor gives it. */
  lemma {:induction false} RoundTrip<C>(modules: Modules<C>, construct: C -> Attrs, moduleName: string, name: string, attrs: Attrs)
    requires moduleName in modules && name in modules[moduleName]
    ensures Serialise(modules, moduleName, name, attrs).Ok?
    ensures var t := Deserialised(modules, construct, Serialise(modules, moduleName, name, attrs).value);
            && t.Ok?
            && t.value.0 == modules[moduleName][name]
            && (forall k :: k in attrs && !Internal(k) ==> k in t.value.1 && t.value.1[k] == attrs[k])
            && (forall k :: k in t.value.1 ==> (k in attrs && !Internal(k)) || k in construct(t.value.0))
            && (forall k :: k in t.value.1 && Internal(k) ==> t.value.1[k] == construct(t.value.0)[k])
  {
    var f := Serialise(modules, moduleName, name, attrs).value;
    assert f.attrs == PublicAttrs(attrs);
  }
}
