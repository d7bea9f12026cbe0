/**
 The class-definition policies of `sigmaepsilon.core.meta`: the helpers of
 `ABCMeta_Weak` and the definition-time checks of `ABCMeta_Strong` and
 `ABCMeta_Safe`, as one validator over class descriptors.

 What Python's own machinery computes is taken as input rather than
 recomputed: the names still abstract on the newly built class (ABCMeta's
 `__abstractmethods__`, after the method resolution order has been applied)
 and, for each base, its `__abstractmethods__`, its own `__dict__` and the
 names `hasattr` reports for it.
 */
module Meta {
  import opened Python

  type Name = string

  /** A value of a class body or of a class `__dict__`: whether it is callable
      and whether it carries `__isabstractmethod__`. An abstract function is
      callable; an abstract property is not. */
  datatype Member = Member(callable: bool, isAbstract: bool)

  type Namespace = map<Name, Member>

  /** A base class as the checks see it. */
  datatype BaseClass = BaseClass(
    name: Name,              // `__name__`
    abstracts: set<Name>,    // `__abstractmethods__` (empty when absent)
    attrs: set<Name>,        // every name for which `hasattr(base, name)` holds
    own: map<Name, Member>)  // `base.__dict__`

  /** The base's abstract names and own members are all reachable by `hasattr`,
      as they are for every class Python builds. */
  predicate WellFormedBase(b: BaseClass) {
    b.abstracts <= b.attrs && b.own.Keys <= b.attrs
  }

  /** One class statement: its name, its bases in declaration order, its body,
      and the names still abstract on the class object Python built from them. */
  datatype ClassDef = ClassDef(
    name: Name,
    bases: seq<BaseClass>,
    namespace: Namespace,
    abstracts: set<Name>)

  /** The policy a class is bound to by its metaclass. */
  datatype Policy = Weak | Strong | Safe

  datatype ContractError =
    | UnimplementedAbstract(cls: Name, member: Name, base: Name)
    | ShadowedMethod(cls: Name, member: Name, base: Name)

  datatype Verdict = Accepted | Rejected(error: ContractError)

  /** A class object that creation produced. */
  datatype BuiltClass = BuiltClass(name: Name, policy: Policy, abstracts: set<Name>)

  /** What calling a built class does: an instance, or the `TypeError` that
      Python raises for a class with abstract methods left. */
  datatype Instantiation = Instance(cls: Name) | Blocked(cls: Name, missing: set<Name>)

  // ---------------------------------------------------------------------------
  // Names and namespaces
  // ---------------------------------------------------------------------------

  /** Two consecutive underscores at position `k` or later. */
  predicate DunderFrom(n: Name, k: nat)
    decreases |n| - k
  {
    k + 1 < |n| && ((n[k] == '_' && n[k + 1] == '_') || DunderFrom(n, k + 1))
  }

  /** `"__" in n`: two consecutive underscores anywhere in the name. */
  predicate HasDunder(n: Name) {
    DunderFrom(n, 0)
  }

  lemma {:induction false} DunderFromAt(n: Name, k: nat)
    ensures DunderFrom(n, k) <==> exists i :: k <= i < |n| - 1 && n[i] == '_' && n[i + 1] == '_'
    decreases |n| - k
  {
    if k + 1 < |n| {
      DunderFromAt(n, k + 1);
    }
  }

  /** The scanning definition agrees with "some position holds `__`". */
  lemma HasDunderAt(n: Name)
    ensures HasDunder(n) <==> exists i :: 0 <= i < |n| - 1 && n[i] == '_' && n[i + 1] == '_'
  {
    DunderFromAt(n, 0);
  }

  /** `_is_callable`: callable and free of `__`. */
  function IsCallable(n: Name, v: Member): (r: bool)
    ensures r <==> v.callable && forall i :: 0 <= i < |n| - 1 ==> !(n[i] == '_' && n[i + 1] == '_')
  {
    HasDunderAt(n);
    v.callable && !HasDunder(n)
  }

  /** `_get_cls_methods`: the callable names of a class body. With `nomagic`
      every name containing `__` anywhere is dropped as well. */
  function ClsMethods(ns: Namespace, nomagic: bool): (r: set<Name>)
    ensures forall n :: n in r <==> n in ns && ns[n].callable && (nomagic ==> !HasDunder(n))
  {
    if nomagic then set n | n in ns && IsCallable(n, ns[n]) else set n | n in ns && ns[n].callable
  }

  /** The filter drops names with `__` in the middle too, not only names
      bracketed by `__`. */
  lemma NoMagicDropsInnerDunder()
    ensures var ns := map["load__data" := Member(true, false)];
            ClsMethods(ns, false) == {"load__data"} && ClsMethods(ns, true) == {}
  {
    assert HasDunder("load__data");
  }

  /** `_get_cls_abstracts`: a class body is a plain dict, which has no
      `__abstractmethods__` attribute, so the default is always returned. */
  function ClsAbstracts(ns: Namespace): (r: set<Name>)
    ensures r == {}
  {
    {}
  }

  // ---------------------------------------------------------------------------
  // Per-base tables keyed by `__name__`
  // ---------------------------------------------------------------------------

  /** No later base in the sequence has the same `__name__` as base `i`. */
  predicate LastWithName(bases: seq<BaseClass>, i: int)
    requires 0 <= i < |bases|
  {
    forall j :: i < j < |bases| ==> bases[j].name != bases[i].name
  }

  /** The `__name__`s of the bases. */
  function Names(bases: seq<BaseClass>): set<Name> {
    set i | 0 <= i < |bases| :: bases[i].name
  }

  lemma NamesSnoc(bases: seq<BaseClass>)
    requires |bases| > 0
    ensures Names(bases) == Names(bases[..|bases| - 1]) + {bases[|bases| - 1].name}
  {
    var init := bases[..|bases| - 1];
    forall n | n in Names(bases)
      ensures n in Names(init) + {bases[|bases| - 1].name}
    {
      var i :| 0 <= i < |bases| && bases[i].name == n;
      if i < |init| {
        assert init[i] == bases[i];
      }
    }
    forall n | n in Names(init)
      ensures n in Names(bases)
    {
      var i :| 0 <= i < |init| && init[i].name == n;
      assert bases[i] == init[i];
    }
  }

  /** A dict filled base by base under `base.__name__`: later bases overwrite
      earlier ones of the same name. */
  function ByName<V>(bases: seq<BaseClass>, value: BaseClass -> V): (r: map<Name, V>)
    ensures r.Keys == Names(bases)
    decreases |bases|
  {
    if |bases| == 0 then map[]
    else
      NamesSnoc(bases);
      ByName(bases[..|bases| - 1], value)[bases[|bases| - 1].name := value(bases[|bases| - 1])]
  }

  /** The entry under a name is the value of the last base with that name. */
  lemma {:induction false} ByNameLastWins<V>(bases: seq<BaseClass>, value: BaseClass -> V, i: int)
    requires 0 <= i < |bases| && LastWithName(bases, i)
    ensures bases[i].name in ByName(bases, value)
    ensures ByName(bases, value)[bases[i].name] == value(bases[i])
    decreases |bases|
  {
    var init, last := bases[..|bases| - 1], bases[|bases| - 1];
    if i < |init| {
      assert init[i] == bases[i];
      assert bases[i].name != last.name;
      assert LastWithName(init, i);
      ByNameLastWins(init, value, i);
    }
  }

  /** The own callables of a base: entries of its `__dict__` passing `_is_callable`. */
  function OwnCallables(b: BaseClass): (r: map<Name, Member>)
    ensures r.Keys <= b.own.Keys
    ensures forall k :: k in b.own && IsCallable(k, b.own[k]) ==> k in r && r[k] == b.own[k]
    ensures forall k :: k in r ==> r[k] == b.own[k] && IsCallable(k, b.own[k])
  {
    map k | k in b.own && IsCallable(k, b.own[k]) :: b.own[k]
  }

  /** `_get_base_methods`: each base's own non-`__` callables, keyed by name. */
  function BaseMethods(bases: seq<BaseClass>): (r: map<Name, map<Name, Member>>)
    ensures r.Keys == Names(bases)
    ensures forall i :: 0 <= i < |bases| && LastWithName(bases, i) ==> r[bases[i].name] == OwnCallables(bases[i])
  {
    forall i | 0 <= i < |bases| && LastWithName(bases, i) {
      ByNameLastWins(bases, OwnCallables, i);
    }
    ByName(bases, OwnCallables)
  }

  function AbstractsOf(b: BaseClass): set<Name> { b.abstracts }

  /** `_get_base_abstracts`: each base's `__abstractmethods__`, keyed by name. */
  function BaseAbstracts(bases: seq<BaseClass>): (r: map<Name, set<Name>>)
    ensures r.Keys == Names(bases)
    ensures forall i :: 0 <= i < |bases| && LastWithName(bases, i) ==> r[bases[i].name] == bases[i].abstracts
  {
    forall i | 0 <= i < |bases| && LastWithName(bases, i) {
      ByNameLastWins(bases, AbstractsOf, i);
    }
    ByName(bases, AbstractsOf)
  }

  /** Two bases sharing a `__name__` collide: only the later one's entry survives. */
  lemma BaseAbstractsCollide(a: BaseClass, b: BaseClass)
    requires a.name == b.name
    ensures BaseAbstracts([a, b]) == map[a.name := b.abstracts]
  {
    var r := BaseAbstracts([a, b]);
    assert LastWithName([a, b], 1);
    assert r.Keys == {a.name};
  }

  // ---------------------------------------------------------------------------
  // The Strong policy
  // ---------------------------------------------------------------------------

  /** Name `m`, abstract in base `b`, is still abstract on the built class and
      is not a callable of the class body. */
  predicate StrongUnmet(d: ClassDef, b: BaseClass, m: Name) {
    m in b.abstracts && m in d.abstracts && m !in ClsMethods(d.namespace, false)
  }

  predicate StrongBaseOk(d: ClassDef, b: BaseClass) {
    forall m :: m in b.abstracts ==> !StrongUnmet(d, b, m)
  }

  /** The Strong policy accepts the class statement. */
  predicate StrongAccepts(d: ClassDef) {
    forall i :: 0 <= i < |d.bases| ==> StrongBaseOk(d, d.bases[i])
  }

  /** `e` names the class, an unmet name of the first base that has one, and that base. */
  predicate StrongReport(d: ClassDef, e: ContractError) {
    && e.UnimplementedAbstract?
    && e.cls == d.name
    && exists i :: 0 <= i < |d.bases| && e.base == d.bases[i].name && StrongUnmet(d, d.bases[i], e.member)
                 && forall j :: 0 <= j < i ==> StrongBaseOk(d, d.bases[j])
  }

  /** `ABCMeta_Strong.__new__` after the class object is built: bases in
      declaration order; for each, the names of its `__abstractmethods__` still
      abstract on the class, in set order; the first one that is not a callable
      of the body is reported. */
  method CheckStrong(d: ClassDef) returns (v: Verdict)
    ensures v.Accepted? <==> StrongAccepts(d)
    ensures v.Rejected? ==> StrongReport(d, v.error)
  {
    var clsMethods := ClsMethods(d.namespace, false);
    var i := 0;
    while i < |d.bases|
      invariant 0 <= i <= |d.bases|
      invariant forall j :: 0 <= j < i ==> StrongBaseOk(d, d.bases[j])
    {
      var base := d.bases[i];
      var pending := set m | m in base.abstracts && m in d.abstracts;
      while pending != {}
        invariant pending <= base.abstracts
        invariant forall m :: m in base.abstracts && m in d.abstracts && m !in pending ==> m in clsMethods
        decreases pending
      {
        var m :| m in pending;
        if m !in clsMethods {
          assert StrongUnmet(d, d.bases[i], m);
          return Rejected(UnimplementedAbstract(d.name, m, base.name));
        }
        pending := pending - {m};
      }
      i := i + 1;
    }
    return Accepted;
  }

  // ---------------------------------------------------------------------------
  // The Safe policy
  // ---------------------------------------------------------------------------

  /** Name `m` is a non-`__` callable of the body and `hasattr(b, m)` holds. */
  predicate SafeConflict(d: ClassDef, b: BaseClass, m: Name) {
    m in ClsMethods(d.namespace, true) && m in b.attrs
  }

  predicate SafeBaseOk(d: ClassDef, b: BaseClass) {
    forall m :: m in b.attrs ==> !SafeConflict(d, b, m)
  }

  /** The Safe policy accepts the class statement. */
  predicate SafeAccepts(d: ClassDef) {
    forall i :: 0 <= i < |d.bases| ==> SafeBaseOk(d, d.bases[i])
  }

  /** `e` names the class, a conflicting name of the first base that has one, and that base. */
  predicate SafeReport(d: ClassDef, e: ContractError) {
    && e.ShadowedMethod?
    && e.cls == d.name
    && exists i :: 0 <= i < |d.bases| && e.base == d.bases[i].name && SafeConflict(d, d.bases[i], e.member)
                 && forall j :: 0 <= j < i ==> SafeBaseOk(d, d.bases[j])
  }

  /** `ABCMeta_Safe.__new__` after the class object is built: bases in
      declaration order; for each, the non-`__` callables of the body in set
      order; the first one the base already has is reported. */
  method CheckSafe(d: ClassDef) returns (v: Verdict)
    ensures v.Accepted? <==> SafeAccepts(d)
    ensures v.Rejected? ==> SafeReport(d, v.error)
  {
    var clsMethods := ClsMethods(d.namespace, true);
    var i := 0;
    while i < |d.bases|
      invariant 0 <= i <= |d.bases|
      invariant forall j :: 0 <= j < i ==> SafeBaseOk(d, d.bases[j])
    {
      var base := d.bases[i];
      var pending := clsMethods;
      while pending != {}
        invariant pending <= clsMethods
        invariant forall m :: m in clsMethods && m !in pending ==> m !in base.attrs
        decreases pending
      {
        var m :| m in pending;
        if m in base.attrs {
          assert SafeConflict(d, d.bases[i], m);
          return Rejected(ShadowedMethod(d.name, m, base.name));
        }
        pending := pending - {m};
      }
      i := i + 1;
    }
    return Accepted;
  }

  // ---------------------------------------------------------------------------
  // Class creation under a policy
  // ---------------------------------------------------------------------------

  /** The policy lets the class statement through. */
  predicate Accepts(p: Policy, d: ClassDef) {
    match p
    case Weak => true
    case Strong => StrongAccepts(d)
    case Safe => SafeAccepts(d)
  }

  /** The `TypeError` text of a rejected class statement. */
  function Message(e: ContractError): string {
    match e
    case UnimplementedAbstract(c, m, b) =>
      "Can't create abstract class " + c + "! " + c + " must implement abstract method " + m + " of class " + b + "."
    case ShadowedMethod(c, m, b) =>
      "Can't create abstract class " + c + "! Method " + m + " is already implemented in class " + b + "."
  }

  /** The metaclass of policy `p` runs on a class statement. */
  method CreateClass(p: Policy, d: ClassDef) returns (r: Result<BuiltClass>)
    ensures r.Ok? <==> Accepts(p, d)
    ensures r.Ok? ==> r.value == BuiltClass(d.name, p, d.abstracts)
    ensures r.Err? && p == Strong ==> exists e :: StrongReport(d, e) && r.error == TypeError(Message(e))
    ensures r.Err? && p == Safe ==> exists e :: SafeReport(d, e) && r.error == TypeError(Message(e))
  {
    var v := Accepted;
    match p {
      case Weak =>
      case Strong => v := CheckStrong(d);
      case Safe => v := CheckSafe(d);
    }
    if v.Rejected? {
      return Err(TypeError(Message(v.error)));
    }
    return Ok(BuiltClass(d.name, p, d.abstracts));
  }

  /** Calling a built class: Python refuses exactly the classes with abstract
      names left, and names them. */
  function Instantiate(c: BuiltClass): (r: Instantiation)
    ensures r.cls == c.name
    ensures r.Instance? <==> c.abstracts == {}
    ensures r.Blocked? ==> r.missing == c.abstracts && r.missing != {}
  {
    if c.abstracts == {} then Instance(c.name) else Blocked(c.name, c.abstracts)
  }

  // ---------------------------------------------------------------------------
  // Properties of the policies
  // ---------------------------------------------------------------------------

  /** Union of a per-base set over all bases. */
  function UnionOver(bases: seq<BaseClass>, part: BaseClass -> set<Name>): set<Name>
    decreases |bases|
  {
    if |bases| == 0 then {} else UnionOver(bases[..|bases| - 1], part) + part(bases[|bases| - 1])
  }

  lemma {:induction false} UnionOverMembers(bases: seq<BaseClass>, part: BaseClass -> set<Name>, m: Name)
    ensures m in UnionOver(bases, part) <==> exists i :: 0 <= i < |bases| && m in part(bases[i])
    decreases |bases|
  {
    if |bases| > 0 {
      var init := bases[..|bases| - 1];
      UnionOverMembers(init, part, m);
      assert forall i :: 0 <= i < |init| ==> init[i] == bases[i];
    }
  }

  function AttrsOf(b: BaseClass): set<Name> { b.attrs }

  /** Strong, stated over the whole hierarchy: every name inherited abstract
      from some base and still abstract on the class is a callable of the body. */
  lemma StrongAcceptsIff(d: ClassDef)
    ensures StrongAccepts(d) <==>
            UnionOver(d.bases, AbstractsOf) * d.abstracts <= ClsMethods(d.namespace, false)
  {
    var cm := ClsMethods(d.namespace, false);
    var u := UnionOver(d.bases, AbstractsOf);
    if StrongAccepts(d) {
      forall m | m in u * d.abstracts
        ensures m in cm
      {
        UnionOverMembers(d.bases, AbstractsOf, m);
        var i :| 0 <= i < |d.bases| && m in AbstractsOf(d.bases[i]);
        assert StrongBaseOk(d, d.bases[i]);
      }
    } else {
      var i :| 0 <= i < |d.bases| && !StrongBaseOk(d, d.bases[i]);
      var m :| m in d.bases[i].abstracts && StrongUnmet(d, d.bases[i], m);
      UnionOverMembers(d.bases, AbstractsOf, m);
      assert m in u * d.abstracts && m !in cm;
    }
  }

  /** Safe, stated over the whole hierarchy: no non-`__` callable of the body is
      an attribute of any base. */
  lemma SafeAcceptsIff(d: ClassDef)
    ensures SafeAccepts(d) <==> ClsMethods(d.namespace, true) !! UnionOver(d.bases, AttrsOf)
  {
    var cm := ClsMethods(d.namespace, true);
    var u := UnionOver(d.bases, AttrsOf);
    if SafeAccepts(d) {
      forall m | m in cm
        ensures m !in u
      {
        UnionOverMembers(d.bases, AttrsOf, m);
        forall i | 0 <= i < |d.bases|
          ensures m !in AttrsOf(d.bases[i])
        {
          assert SafeBaseOk(d, d.bases[i]);
        }
      }
    } else {
      var i :| 0 <= i < |d.bases| && !SafeBaseOk(d, d.bases[i]);
      var m :| m in d.bases[i].attrs && SafeConflict(d, d.bases[i], m);
      UnionOverMembers(d.bases, AttrsOf, m);
      assert m in cm && m in u;
    }
  }

  /** The three ways a Strong obligation of a base is discharged: the name is
      no longer abstract on the class (a concrete version came through the
      method resolution order), or the body holds a callable under that name,
      abstract (deferral) or not (implementation). */
  lemma StrongObligationMet(d: ClassDef, i: int, m: Name)
    requires 0 <= i < |d.bases| && m in d.bases[i].abstracts
    ensures !StrongUnmet(d, d.bases[i], m) <==>
            m !in d.abstracts || (m in d.namespace && d.namespace[m].callable)
  {
  }

  /** An abstract property re-declared in the body is not callable, so it does
      not defer the obligation: Strong still rejects. */
  lemma StrongRejectsAbstractProperty(d: ClassDef, i: int, m: Name)
    requires 0 <= i < |d.bases| && m in d.bases[i].abstracts && m in d.abstracts
    requires m in d.namespace && d.namespace[m] == Member(false, true)
    ensures !StrongAccepts(d)
  {
    assert StrongUnmet(d, d.bases[i], m);
    assert !StrongBaseOk(d, d.bases[i]);
  }

  /** Under Safe, writing a method that a base declares abstract is itself a
      conflict: the abstract stub already makes `hasattr` true. */
  lemma SafeRejectsOverride(d: ClassDef, i: int, m: Name)
    requires 0 <= i < |d.bases| && WellFormedBase(d.bases[i])
    requires m in d.bases[i].abstracts && m in d.namespace && d.namespace[m].callable && !HasDunder(m)
    ensures !SafeAccepts(d)
  {
    assert SafeConflict(d, d.bases[i], m);
    assert !SafeBaseOk(d, d.bases[i]);
  }

  /** Adding a name with `__` or a non-callable value to the body never changes
      the Safe verdict. */
  lemma SafeIgnoresDunderAndData(d: ClassDef, n: Name, v: Member)
    requires n !in d.namespace && (HasDunder(n) || !v.callable)
    ensures SafeAccepts(d.(namespace := d.namespace[n := v])) == SafeAccepts(d)
  {
    var d' := d.(namespace := d.namespace[n := v]);
    assert ClsMethods(d'.namespace, true) == ClsMethods(d.namespace, true);
  }

  /** A class with no bases is accepted by every policy. */
  lemma NoBasesAccepted(p: Policy, d: ClassDef)
    requires d.bases == []
    ensures Accepts(p, d)
  {
  }
}
