/**
 The policy roots of `sigmaepsilon.core.abstract` (`ABC_Weak`, `ABC_Strong`,
 `ABC_Safe`) and the class hierarchies their documentation walks through,
 each run through the model of the metaclasses.
 */
module Abstract {
  import opened Python
  import opened Meta

  /** A data attribute of a class body (`__module__`, `__qualname__`,
      `__slots__`, a docstring): neither callable nor abstract. */
  const Data := Member(false, false)
  const Method := Member(true, false)
  const AbstractMethod := Member(true, true)

  /** The body of a class statement that only has a docstring and `__slots__ = ()`. */
  const RootBody: Namespace :=
    map["__module__" := Data, "__qualname__" := Data, "__doc__" := Data, "__slots__" := Data]

  /** The `__dict__` of a class built from `RootBody`: `type.__new__` moves
      `__qualname__` out of the namespace into a slot of the class, where
      `hasattr` still finds it (`ObjectAttrs`). */
  const RootDict: Namespace := RootBody - {"__qualname__"}

  /** Names without `__` that `hasattr` finds on every class built by `ABCMeta`:
      the metaclass's own methods and the per-class registry state. */
  const AbcMetaNames: set<Name> :=
    {"register", "mro", "_abc_impl", "_abc_registry_clear", "_abc_caches_clear", "_dump_registry"}

  /** The static helpers `ABCMeta_Weak` defines (meta.py); the Strong and Safe
      metaclasses inherit them, so `hasattr` finds them on every root too. */
  const WeakMetaNames: set<Name> :=
    {"_get_cls_methods", "_get_cls_abstracts", "_get_base_methods", "_get_base_abstracts"}

  /** Every name without `__` that `hasattr` finds on a root through its
      metaclass: `type` adds `mro`, `ABCMeta` the rest of `AbcMetaNames`,
      `ABCMeta_Weak` the `WeakMetaNames`, and `object` none. */
  const MetaclassNames: set<Name> := AbcMetaNames + WeakMetaNames

  /** Names `hasattr` reports on every root, whatever its body: the dunder
      attributes of `object` and of the class statement, and `MetaclassNames`.
      Among names without `__`, the only ones the Safe check looks at, this is
      all of them. */
  const ObjectAttrs: set<Name> :=
    {"__class__", "__doc__", "__qualname__", "__init__", "__new__", "__module__", "__slots__", "__abstractmethods__"}
    + MetaclassNames

  /** The class statement of a root: no bases, a body without methods. */
  function RootDef(name: Name): (d: ClassDef)
    ensures d.bases == [] && d.abstracts == {}
    ensures ClsMethods(d.namespace, false) == {}
  {
    ClassDef(name, [], RootBody, {})
  }

  /** A root as a base of user classes. */
  function RootBase(name: Name): (b: BaseClass)
    ensures WellFormedBase(b) && b.abstracts == {}
  {
    BaseClass(name, {}, ObjectAttrs, RootDict)
  }

  /** Each root is created without error and is bound to exactly its own policy. */
  method CreateRoots() returns (weak: Result<BuiltClass>, strong: Result<BuiltClass>, safe: Result<BuiltClass>)
    ensures weak == Ok(BuiltClass("ABC_Weak", Weak, {}))
    ensures strong == Ok(BuiltClass("ABC_Strong", Strong, {}))
    ensures safe == Ok(BuiltClass("ABC_Safe", Safe, {}))
  {
    weak := CreateClass(Weak, RootDef("ABC_Weak"));
    strong := CreateClass(Strong, RootDef("ABC_Strong"));
    safe := CreateClass(Safe, RootDef("ABC_Safe"));
  }

  // ---------------------------------------------------------------------------
  // ABC_Weak: only instantiation fails
  // ---------------------------------------------------------------------------

  const WeakParent := BaseClass(
    "ABC_Parent_Weak", {"abc_method_parent"}, ObjectAttrs + {"abc_method_parent"},
    RootDict["abc_method_parent" := AbstractMethod])

  /** A Weak child that adds an abstract method and leaves the parent's one is
      created; a class implementing both instantiates; a class implementing
      only one is created but cannot be instantiated, and the error names the
      missing method. */
  method WeakScenario() returns (child: Result<BuiltClass>, full: Instantiation, partial: Instantiation)
    ensures child == Ok(BuiltClass("ABC_Child_Weak", Weak, {"abc_method_child", "abc_method_parent"}))
    ensures full == Instance("MyClass")
    ensures partial == Blocked("MyClass", {"abc_method_parent"})
  {
    child := CreateClass(Weak, ClassDef(
      "ABC_Child_Weak", [WeakParent], RootBody["abc_method_child" := AbstractMethod],
      {"abc_method_child", "abc_method_parent"}));
    var c1 := CreateClass(Weak, ClassDef(
      "MyClass", [WeakParent],
      RootBody["abc_method_child" := Method]["abc_method_parent" := Method], {}));
    full := Instantiate(c1.value);
    var c2 := CreateClass(Weak, ClassDef(
      "MyClass", [WeakParent], RootBody["abc_method_child" := Method], {"abc_method_parent"}));
    partial := Instantiate(c2.value);
  }

  // ---------------------------------------------------------------------------
  // ABC_Strong: obligations are checked when the class is created
  // ---------------------------------------------------------------------------

  const StrongParent := BaseClass(
    "MyParentAbstractClass", {"my_abstract_method_A", "my_abstract_method_B"},
    ObjectAttrs + {"my_abstract_method_A", "my_abstract_method_B"},
    RootDict["my_abstract_method_A" := AbstractMethod]["my_abstract_method_B" := AbstractMethod])

  const ChildOmitting := ClassDef(
    "MyChildAbstractClass", [StrongParent],
    RootBody["my_abstract_method_A" := AbstractMethod],
    {"my_abstract_method_A", "my_abstract_method_B"})

  /** In the omitting child the only unmet obligation is B of the parent. */
  lemma OmittingUnmet(m: Name)
    ensures StrongUnmet(ChildOmitting, StrongParent, m) <==> m == "my_abstract_method_B"
  {
    assert "my_abstract_method_A" in ClsMethods(ChildOmitting.namespace, false);
    assert "my_abstract_method_B" !in ChildOmitting.namespace;
  }

  /** Deferring A by re-declaring it abstract and implementing B is accepted;
      deferring A but omitting B is rejected, naming the child, B and the parent. */
  method StrongScenario() returns (deferred: Result<BuiltClass>, omitted: Result<BuiltClass>)
    ensures deferred == Ok(BuiltClass("MyChildAbstractClass", Strong, {"my_abstract_method_A"}))
    ensures omitted == Err(TypeError(Message(UnimplementedAbstract(
      "MyChildAbstractClass", "my_abstract_method_B", "MyParentAbstractClass"))))
  {
    var ok := ClassDef(
      "MyChildAbstractClass", [StrongParent],
      RootBody["my_abstract_method_A" := AbstractMethod]["my_abstract_method_B" := Method],
      {"my_abstract_method_A"});
    assert "my_abstract_method_A" in ClsMethods(ok.namespace, false);
    assert StrongBaseOk(ok, ok.bases[0]);
    deferred := CreateClass(Strong, ok);
    var d := ChildOmitting;
    OmittingUnmet("my_abstract_method_B");
    assert !StrongBaseOk(d, d.bases[0]);
    omitted := CreateClass(Strong, d);
    var e :| StrongReport(d, e) && omitted.error == TypeError(Message(e));
    OmittingUnmet(e.member);
    assert e == UnimplementedAbstract("MyChildAbstractClass", "my_abstract_method_B", "MyParentAbstractClass");
  }

  // ---------------------------------------------------------------------------
  // ABC_Safe: redefining an inherited method is rejected
  // ---------------------------------------------------------------------------

  /** None of the metaclass names contains `__`. */
  lemma MetaclassNamesPlain(m: Name)
    requires m in MetaclassNames
    ensures !HasDunder(m)
  {
    HasDunderAt(m);
    if m == "register" {
      assert !HasDunder("register");
    } else if m == "mro" {
      assert !HasDunder("mro");
    } else if m == "_abc_impl" {
      assert !HasDunder("_abc_impl");
    } else if m == "_abc_registry_clear" {
      assert !HasDunder("_abc_registry_clear");
    } else if m == "_abc_caches_clear" {
      assert !HasDunder("_abc_caches_clear");
    } else if m == "_dump_registry" {
      assert !HasDunder("_dump_registry");
    } else if m == "_get_cls_methods" {
      assert !HasDunder("_get_cls_methods");
    } else if m == "_get_cls_abstracts" {
      assert !HasDunder("_get_cls_abstracts");
    } else if m == "_get_base_methods" {
      assert !HasDunder("_get_base_methods");
    } else {
      assert !HasDunder("_get_base_abstracts");
    }
  }

  /** The names a root's metaclass provides are taken: a direct Safe child of
      `ABC_Safe` that defines a method under one of them is rejected. */
  lemma SafeRejectsMetaclassName(m: Name)
    requires m in MetaclassNames
    ensures !SafeAccepts(ClassDef("C", [RootBase("ABC_Safe")], RootBody[m := Method], {}))
  {
    var d := ClassDef("C", [RootBase("ABC_Safe")], RootBody[m := Method], {});
    MetaclassNamesPlain(m);
    assert SafeConflict(d, d.bases[0], m);
    assert !SafeBaseOk(d, d.bases[0]);
  }

  // ---------------------------------------------------------------------------
  // A parent and child from the documentation
  // ---------------------------------------------------------------------------

  const SafeParent := BaseClass(
    "ABC_Parent_Safe", {}, ObjectAttrs + {"funcParentSafe"}, RootDict["funcParentSafe" := Method])

  const SafeChild := ClassDef("ABC_Child_Safe", [SafeParent], RootBody["funcParentSafe" := Method], {})

  /** The child's only conflict with the parent is `funcParentSafe`. */
  lemma SafeChildConflicts(m: Name)
    ensures SafeConflict(SafeChild, SafeParent, m) <==> m == "funcParentSafe"
  {
    var ns := SafeChild.namespace;
    if m == "funcParentSafe" {
      assert !HasDunder(m);
      assert m in ClsMethods(ns, true) && m in SafeParent.attrs;
    } else {
      assert m in ns ==> ns[m] == Data;
    }
  }

  /** A Safe child redefining the parent's method is rejected, naming the
      method and the parent. */
  method SafeScenario() returns (redefined: Result<BuiltClass>)
    ensures redefined == Err(TypeError(Message(ShadowedMethod(
      "ABC_Child_Safe", "funcParentSafe", "ABC_Parent_Safe"))))
  {
    var d := SafeChild;
    SafeChildConflicts("funcParentSafe");
    assert !SafeBaseOk(d, d.bases[0]);
    redefined := CreateClass(Safe, d);
    var e :| SafeReport(d, e) && redefined.error == TypeError(Message(e));
    SafeChildConflicts(e.member);
    assert e == ShadowedMethod("ABC_Child_Safe", "funcParentSafe", "ABC_Parent_Safe");
  }
}
