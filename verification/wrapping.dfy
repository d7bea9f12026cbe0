/**
 The delegating wrapper of `sigmaepsilon.core.wrapping`: a wrapper type is a
 configuration (`wrapkey`, `wraptype`, and for decorated types the base type
 behind `super()`), a wrapper instance is that configuration plus the wrapped
 reference. Construction, `wrap`, `wraps`, the two getters, attribute
 forwarding, item read and write, `str` and `repr` are pure functions over
 them.

 Everything the wrapper asks of Python or of the wrapped object is an oracle
 in `Host`: `isinstance`, calling `wraptype(*args, **kwargs)`, attribute and
 item access on other objects, and their `str`/`repr`.
 */
module Wrapping {
  import opened Python

  /** A class object: its `__name__` and an identity telling apart classes
      that share a name. */
  datatype TypeTag = TypeTag(name: string, id: nat)

  /** A reference to a Python object other than `None`. */
  datatype Value = Value(id: nat)

  /** A Python value: `None` or an object. */
  type Arg = Option<Value>

  /** What the wrapper takes from the host. */
  datatype Host = Host(
    isInstance: (Arg, TypeTag) -> bool,                             // isinstance(obj, T)
    construct: (TypeTag, seq<Arg>, map<string, Arg>) -> Option<Value>, // T(*args, **kwargs); None: it raised
    classAttr: (TypeTag, string) -> Option<Arg>,                    // normal lookup on an instance of T
    getAttr: (Arg, string) -> Option<Arg>,                          // getattr(obj, name); None: it raised
    getItem: (Value, Arg) -> Option<Arg>,                           // obj[key]; None: it raised
    setItem: (Value, Arg, Arg) -> bool,                             // obj[key] = v; false: it raised
    baseGetItem: (TypeTag, Arg) -> Option<Arg>,                     // the base type's __getitem__ on the wrapper
    baseSetItem: (TypeTag, Arg, Arg) -> bool,                       // the base type's __setitem__ on the wrapper
    str: Value -> string,
    repr: Value -> string)

  /** Calling a class that returns normally yields an instance of it. */
  ghost predicate ConstructorSound(h: Host) {
    forall t, args, kwargs :: h.construct(t, args, kwargs).Some? ==> h.isInstance(h.construct(t, args, kwargs), t)
  }

  /** A wrapper type. `wraptype == None` is the default `NoneType`, meaning
      "no accepted type"; `basetype` is the type a decorator combined with the
      wrapper, reached by `super()` in the item methods. */
  datatype WrapperClass = WrapperClass(
    tag: TypeTag,
    wrapkey: string,
    wraptype: Option<TypeTag>,
    basetype: Option<TypeTag>)

  /** A wrapper instance: its type and the `_wrapped` reference. */
  datatype Wrapper = Wrapper(cls: WrapperClass, wrapped: Arg)

  /** Which object accepted an item assignment. */
  datatype ItemTarget = OwnIndexing | WrappedObject

  /** The `Wrapper` class itself. */
  const WrapperBase := WrapperClass(TypeTag("Wrapper", 0), "wrap", None, None)

  // ---------------------------------------------------------------------------
  // Binding
  // ---------------------------------------------------------------------------

  /** `wrap` stores `obj` on a wrapper of this type: always without a
      `wraptype`, otherwise only an instance of it. */
  predicate Binds(h: Host, c: WrapperClass, obj: Arg) {
    c.wraptype.None? || h.isInstance(obj, c.wraptype.value)
  }

  /** `Wrapper.wrap`: stores an acceptable object and leaves the wrapper
      unchanged otherwise. Python returns the same wrapper object. */
  function Wrap(h: Host, w: Wrapper, obj: Arg): (r: Wrapper)
    ensures r.cls == w.cls
    ensures Binds(h, w.cls, obj) ==> r.wrapped == obj
    ensures !Binds(h, w.cls, obj) ==> r == w
  {
    if w.cls.wraptype.Some? then
      if h.isInstance(obj, w.cls.wraptype.value) then w.(wrapped := obj) else w
    else
      w.(wrapped := obj)
  }

  /** `Wrapper.wraps`. */
  function Wraps(w: Wrapper): (r: bool)
    ensures r <==> w.wrapped != None
  {
    w.wrapped.Some?
  }

  /** The `wrapped` property. */
  function Wrapped(w: Wrapper): (r: Arg)
    ensures r == None <==> !Wraps(w)
  {
    w.wrapped
  }

  /** `Wrapper.wrapped_obj`: the same reference as the `wrapped` property. */
  function WrappedObj(w: Wrapper): (r: Arg)
    ensures r == Wrapped(w)
  {
    w.wrapped
  }

  /** After an accepted `wrap(v)` the wrapper reports `v`, from both getters. */
  lemma WrapRoundTrip(h: Host, w: Wrapper, v: Arg)
    requires Binds(h, w.cls, v)
    ensures Wrapped(Wrap(h, w, v)) == v && WrappedObj(Wrap(h, w, v)) == v
    ensures Wraps(Wrap(h, w, v)) <==> v != None
  {
  }

  /** Wrapping the same object twice is wrapping it once. */
  lemma WrapIdempotent(h: Host, w: Wrapper, v: Arg)
    ensures Wrap(h, Wrap(h, w, v), v) == Wrap(h, w, v)
  {
  }

  // ---------------------------------------------------------------------------
  // Construction
  // ---------------------------------------------------------------------------

  /** `kwargs.get(key, None)`. */
  function KwGet(kwargs: map<string, Arg>, key: string): Arg {
    if key in kwargs then kwargs[key] else None
  }

  /** Position `i` holds the first instance of `t` among `args`. */
  predicate FirstInstanceAt(h: Host, args: seq<Arg>, t: TypeTag, i: int) {
    0 <= i < |args| && h.isInstance(args[i], t) && forall j :: 0 <= j < i ==> !h.isInstance(args[j], t)
  }

  /** The scan over the positional arguments, stopping at the first instance. */
  function FirstInstance(h: Host, args: seq<Arg>, t: TypeTag): (r: Option<nat>)
    ensures r.Some? ==> FirstInstanceAt(h, args, t, r.value)
    ensures r.None? ==> forall j :: 0 <= j < |args| ==> !h.isInstance(args[j], t)
    decreases |args|
  {
    if |args| == 0 then None
    else if h.isInstance(args[0], t) then Some(0)
    else
      match FirstInstance(h, args[1..], t)
      case None => None
      case Some(i) => Some(i + 1)
  }

  /** The `ValueError` text when `wraptype(*args, **kwargs)` raises: the
      `.format` call binds to the last literal only, so the placeholder is
      never filled. */
  const ConstructionFailed := "Wrapped class '{}' cannot be initiated with these arguments"

  /** `Wrapper.__init__`. */
  function Init(h: Host, c: WrapperClass, args: seq<Arg>, kwargs: map<string, Arg>): (r: Result<Wrapper>)
    ensures r.Ok? ==> r.value.cls == c
    // only the constructor can fail, and then with the unfilled message
    ensures r.Err? ==> c.wraptype.Some? && r.error == ValueError(ConstructionFailed)
    // no wraptype: exactly the keyword value, positional arguments ignored
    ensures c.wraptype.None? ==> r == Ok(Wrapper(c, KwGet(kwargs, c.wrapkey)))
    // first priority: a keyword value that is an instance
    ensures c.wraptype.Some? && KwGet(kwargs, c.wrapkey).Some? && h.isInstance(KwGet(kwargs, c.wrapkey), c.wraptype.value)
            ==> r == Ok(Wrapper(c, KwGet(kwargs, c.wrapkey)))
    // second: the first positional instance, keyword value of a wrong type ignored
    ensures forall i :: c.wraptype.Some? && !(KwGet(kwargs, c.wrapkey).Some? && h.isInstance(KwGet(kwargs, c.wrapkey), c.wraptype.value))
                        && FirstInstanceAt(h, args, c.wraptype.value, i) && args[i].Some?
                        ==> r == Ok(Wrapper(c, args[i]))
    // third: the constructor, called with all arguments and all keywords
    ensures c.wraptype.Some? && !(KwGet(kwargs, c.wrapkey).Some? && h.isInstance(KwGet(kwargs, c.wrapkey), c.wraptype.value))
            && (forall i :: FirstInstanceAt(h, args, c.wraptype.value, i) ==> args[i].None?)
            ==> (r.Ok? <==> h.construct(c.wraptype.value, args, kwargs).Some?)
                && (r.Ok? ==> r.value.wrapped == h.construct(c.wraptype.value, args, kwargs))
  {
    var w := Wrap(h, Wrapper(c, None), KwGet(kwargs, c.wrapkey));
    if w.wrapped.None? && c.wraptype.Some? then
      var t := c.wraptype.value;
      var w' := match FirstInstance(h, args, t)
        case Some(i) => w.(wrapped := args[i])
        case None => w;
      if w'.wrapped.Some? then Ok(w')
      else
        match h.construct(t, args, kwargs)
        case Some(v) => Ok(w'.(wrapped := Some(v)))
        case None => Err(ValueError(ConstructionFailed))
    else if c.wraptype.Some? && !h.isInstance(w.wrapped, c.wraptype.value) then
      Err(AssertionError("Wrong type, unable to wrap object : " + Str(h, w)))
    else
      Ok(w)
  }

  /** After construction with a `wraptype`, the wrapper holds an instance of it;
      the assertion in the constructor can never fire. */
  lemma InitHoldsInstance(h: Host, c: WrapperClass, args: seq<Arg>, kwargs: map<string, Arg>)
    requires ConstructorSound(h) && c.wraptype.Some?
    ensures Init(h, c, args, kwargs).Ok? ==>
              Wraps(Init(h, c, args, kwargs).value) && h.isInstance(Init(h, c, args, kwargs).value.wrapped, c.wraptype.value)
  {
    var t := c.wraptype.value;
    var kw := KwGet(kwargs, c.wrapkey);
    if !(kw.Some? && h.isInstance(kw, t)) {
      match FirstInstance(h, args, t)
      case Some(i) =>
      case None =>
    }
  }

  /** Two wrapper types with the same `wrapkey` and `wraptype` bind the same
      object from the same arguments, whichever way they were declared. */
  lemma InitDependsOnlyOnConfig(h: Host, c1: WrapperClass, c2: WrapperClass, args: seq<Arg>, kwargs: map<string, Arg>)
    requires c1.wrapkey == c2.wrapkey && c1.wraptype == c2.wraptype
    ensures Init(h, c1, args, kwargs).Ok? == Init(h, c2, args, kwargs).Ok?
    ensures Init(h, c1, args, kwargs).Ok? ==> Init(h, c1, args, kwargs).value.wrapped == Init(h, c2, args, kwargs).value.wrapped
  {
  }

  // ---------------------------------------------------------------------------
  // The decorators and `wrap`
  // ---------------------------------------------------------------------------

  /** `customwrapper(wrapkey=..., wraptype=...)` applied to `base`: a new class
      `WrapperType` deriving from the configured wrapper and from `base`. */
  function CustomWrapper(wrapkey: string, wraptype: Option<TypeTag>, base: TypeTag, id: nat): (c: WrapperClass)
    ensures c.tag.name == "WrapperType" && c.basetype == Some(base)
    ensures c.wrapkey == wrapkey && c.wraptype == wraptype
  {
    WrapperClass(TypeTag("WrapperType", id), wrapkey, wraptype, Some(base))
  }

  /** `@wrapper` on `base`: the same as `customwrapper` with its defaults. */
  function WrapperDecorator(base: TypeTag, id: nat): (c: WrapperClass)
    ensures c == CustomWrapper("wrap", None, base, id)
  {
    WrapperClass(TypeTag("WrapperType", id), "wrap", None, Some(base))
  }

  /** The module-level `wrap(obj)`: `Wrapper(wrap=obj)`, which always stores `obj`. */
  function WrapObject(h: Host, obj: Arg): (r: Result<Wrapper>)
    ensures r == Ok(Wrapper(WrapperBase, obj))
  {
    Init(h, WrapperBase, [], map["wrap" := obj])
  }

  /** A type made by `@wrapper` ignores positional arguments and stores exactly
      the `wrap` keyword value. */
  lemma DecoratedTypeBindsKeyword(h: Host, base: TypeTag, id: nat, args: seq<Arg>, kwargs: map<string, Arg>)
    ensures Init(h, WrapperDecorator(base, id), args, kwargs) == Ok(Wrapper(WrapperDecorator(base, id), KwGet(kwargs, "wrap")))
  {
  }

  // ---------------------------------------------------------------------------
  // Delegation
  // ---------------------------------------------------------------------------

  /** Normal attribute lookup on the wrapper, before `__getattr__` is tried:
      the `wrapped` property, the `_wrapped` instance attribute, then the class. */
  function OwnLookup(h: Host, w: Wrapper, attr: string): Option<Arg> {
    if attr == "wrapped" || attr == "_wrapped" then Some(w.wrapped) else h.classAttr(w.cls.tag, attr)
  }

  /** Names every wrapper class defines itself (`wrapped` and `_wrapped` are
      read by `OwnLookup` directly). */
  const WrapperNames: set<string> := {"wrap", "wraps", "wrapped_obj", "wrapkey", "wraptype"}

  /** The host's class lookup finds the wrapper's own names on wrapper class `c`. */
  predicate WellFormedClass(h: Host, c: WrapperClass) {
    forall n :: n in WrapperNames ==> h.classAttr(c.tag, n).Some?
  }

  /** On a well-formed wrapper class the wrapper's own names are never forwarded:
      they read the same whatever is wrapped, and never fail. */
  lemma OwnNamesNotForwarded(h: Host, w: Wrapper, n: string, other: Arg)
    requires WellFormedClass(h, w.cls) && n in WrapperNames
    ensures GetAttr(h, w, n) == Ok(h.classAttr(w.cls.tag, n).value)
    ensures GetAttr(h, w, n) == GetAttr(h, w.(wrapped := other), n)
  {
  }

  /** The `AttributeError` text: the backslash continuation inside the literal
      keeps the next line's sixteen leading spaces. */
  function NoAttribute(cls: string, attr: string): string {
    "'" + cls + "' object has no attribute " + "                " + "called " + attr
  }

  /** Attribute read on a wrapper: own lookup first, then `__getattr__`, which
      reads the wrapped object and turns its failure into an `AttributeError`
      naming the wrapper's class. */
  function GetAttr(h: Host, w: Wrapper, attr: string): (r: Result<Arg>)
    ensures OwnLookup(h, w, attr).Some? ==> r == Ok(OwnLookup(h, w, attr).value)
    ensures OwnLookup(h, w, attr).None? && h.getAttr(w.wrapped, attr).Some? ==> r == Ok(h.getAttr(w.wrapped, attr).value)
    ensures r.Err? <==> OwnLookup(h, w, attr).None? && h.getAttr(w.wrapped, attr).None?
    ensures r.Err? ==> r.error == AttributeError(NoAttribute(w.cls.tag.name, attr))
  {
    match OwnLookup(h, w, attr)
    case Some(a) => Ok(a)
    case None =>
      match h.getAttr(w.wrapped, attr)
      case Some(a) => Ok(a)
      case None => Err(AttributeError(NoAttribute(w.cls.tag.name, attr)))
  }

  /** Forwarding is transparent: a name the wrapper does not have reads the same
      through the wrapper as directly on the object it was given by `wrap`. */
  lemma ForwardingAfterWrap(h: Host, w: Wrapper, v: Value, attr: string)
    requires Binds(h, w.cls, Some(v)) && h.classAttr(w.cls.tag, attr).None?
    requires attr != "wrapped" && attr != "_wrapped"
    ensures h.getAttr(Some(v), attr).Some? ==> GetAttr(h, Wrap(h, w, Some(v)), attr) == Ok(h.getAttr(Some(v), attr).value)
    ensures h.getAttr(Some(v), attr).None? ==> GetAttr(h, Wrap(h, w, Some(v)), attr).Err?
  {
  }

  /** `super().__getitem__` from the wrapper: only a decorated type has a base
      type behind `Wrapper`; for a plain subclass `super()` reaches `object`,
      which has no `__getitem__`. */
  function OwnGetItem(h: Host, c: WrapperClass, key: Arg): Option<Arg> {
    if c.basetype.Some? then h.baseGetItem(c.basetype.value, key) else None
  }

  function OwnSetItem(h: Host, c: WrapperClass, key: Arg, v: Arg): bool {
    c.basetype.Some? && h.baseSetItem(c.basetype.value, key, v)
  }

  /** `self._wrapped.__getitem__(key)`; `None` has no `__getitem__`. */
  function WrappedGetItem(h: Host, w: Wrapper, key: Arg): Option<Arg> {
    if w.wrapped.Some? then h.getItem(w.wrapped.value, key) else None
  }

  function WrappedSetItem(h: Host, w: Wrapper, key: Arg, v: Arg): bool {
    w.wrapped.Some? && h.setItem(w.wrapped.value, key, v)
  }

  /** `Wrapper.__getitem__`: own indexing, then the wrapped object's; if both
      raise, whatever they raised, a `TypeError` naming the wrapper's class. */
  function GetItem(h: Host, w: Wrapper, key: Arg): (r: Result<Arg>)
    ensures OwnGetItem(h, w.cls, key).Some? ==> r == Ok(OwnGetItem(h, w.cls, key).value)
    ensures OwnGetItem(h, w.cls, key).None? && WrappedGetItem(h, w, key).Some? ==> r == Ok(WrappedGetItem(h, w, key).value)
    ensures r.Err? <==> OwnGetItem(h, w.cls, key).None? && WrappedGetItem(h, w, key).None?
    ensures r.Err? ==> r.error == TypeError("'" + w.cls.tag.name + "' object is not subscriptable")
  {
    match OwnGetItem(h, w.cls, key)
    case Some(a) => Ok(a)
    case None =>
      match WrappedGetItem(h, w, key)
      case Some(a) => Ok(a)
      case None => Err(TypeError("'" + w.cls.tag.name + "' object is not subscriptable"))
  }

  /** `Wrapper.__setitem__`: the same order; the wrapper itself is unchanged,
      the write lands in whichever object accepted it. */
  function SetItem(h: Host, w: Wrapper, key: Arg, v: Arg): (r: Result<ItemTarget>)
    ensures r == Ok(OwnIndexing) <==> OwnSetItem(h, w.cls, key, v)
    ensures r == Ok(WrappedObject) <==> !OwnSetItem(h, w.cls, key, v) && WrappedSetItem(h, w, key, v)
    ensures r.Err? ==> r.error == TypeError("'" + w.cls.tag.name + "' object does not support item assignment")
  {
    if OwnSetItem(h, w.cls, key, v) then Ok(OwnIndexing)
    else if WrappedSetItem(h, w, key, v) then Ok(WrappedObject)
    else Err(TypeError("'" + w.cls.tag.name + "' object does not support item assignment"))
  }

  /** An unbound wrapper of a plain `Wrapper` subclass supports no indexing at all. */
  lemma UnboundPlainWrapperNotSubscriptable(h: Host, w: Wrapper, key: Arg, v: Arg)
    requires w.cls.basetype.None? && !Wraps(w)
    ensures GetItem(h, w, key).Err? && SetItem(h, w, key, v).Err?
  {
  }

  /** `str(wrapper)`: that of the wrapped value; `'None'` when unbound. */
  function Str(h: Host, w: Wrapper): (r: string)
    ensures !Wraps(w) ==> r == "None"
    ensures Wraps(w) ==> r == h.str(w.wrapped.value)
  {
    if w.wrapped.Some? then h.str(w.wrapped.value) else "None"
  }

  /** `repr(wrapper)`: that of the wrapped value; `'None'` when unbound. */
  function Repr(h: Host, w: Wrapper): (r: string)
    ensures !Wraps(w) ==> r == "None"
    ensures Wraps(w) ==> r == h.repr(w.wrapped.value)
  {
    if w.wrapped.Some? then h.repr(w.wrapped.value) else "None"
  }
}
