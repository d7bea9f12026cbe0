# sigmaepsilon.core in Dafny

This project models the core of the Python package `sigmaepsilon.core`:

- **Class-definition policies** (`meta.py`, `abstract.py`). Three metaclasses decide whether a class statement may create a class.
  - `ABCMeta_Weak` is plain `ABCMeta`. Abstract methods only block instantiation.
  - `ABCMeta_Strong` rejects a class at definition time when it leaves an abstract method of a base neither implemented nor re-declared abstract.
  - `ABCMeta_Safe` rejects a class whose body defines a callable, under a name containing no `__` anywhere, that a base already has.
  - The roots `ABC_Weak`, `ABC_Strong` and `ABC_Safe` bind a class to each policy. The examples in their documentation are modelled as scenario methods with exact outcomes.
- **The delegating `Wrapper`** (`wrapping.py`):
  - construction from keyword, positional argument or `wraptype(*args, **kwargs)`;
  - `wrap`, `wraps`, `wrapped` and `wrapped_obj`;
  - attribute forwarding and item read/write with their fallbacks and error messages;
  - `str` and `repr`;
  - the decorators `customwrapper` and `wrapper`, and the function `wrap`.
- **Small helpers**:
  - `get_index_suffix` (`misc.py`);
  - the code-point generators of `alphabet.py`;
  - the `InfixOperator` of `infix.py`.

Module layout:

| module | file | models |
|---|---|---|
| `Python` | `python.dfy` | `Option`, the Python exceptions used, `Result` |
| `Meta` | `meta.dfy` | `meta.py` |
| `Abstract` | `abstract.dfy` | `abstract.py` |
| `Wrapping` | `wrapping.dfy` | `wrapping.py` |
| `Misc` | `misc.dfy` | `misc.py` |
| `Alphabet` | `alphabet.dfy` | `alphabet.py` |
| `Infix` | `infix.dfy` | `infix.py` |

Modelling choices:

- **What Python computes is an input.** The model does not recompute what CPython's own machinery computes:
  - the abstract names left on a newly built class;
  - a base's `__abstractmethods__`, its `__dict__`, and the names `hasattr` reports for it.
  
  These are fields of `ClassDef` and `BaseClass`. A base's `__dict__` (`Abstract.RootDict` for the roots) lacks `__qualname__`, which `type.__new__` moves out of the class namespace; `hasattr` still reports it. For the wrapper, `isinstance`, calling the wrapped type, attribute and item access on other objects, and `str`/`repr` of other objects are oracles in a `Host` value.
- **An infix operator's function may raise.** `Infix.Binary` holds a function returning a `Result`, and every operator passes its error through, as Python propagates the exception.
- **The validators are methods.** They walk the bases in order, and for each base they walk a set in whatever order iteration gives (`:|`). Python reports the first offending name in set iteration order, so the contracts say the reported name is *some* offending name of the *first* offending base.
- **Where the code and its documentation disagree, the code is followed.**
  - A keyword argument of the wrong type is silently ignored by `Wrapper.__init__`. No type-mismatch error exists.
  - The `ValueError` text of a failed construction keeps its literal `{}`, because `.format` binds only to the last string piece.
  - The `AttributeError` text contains the 16 spaces of the backslash-continued string literal.
  - The rejection text in the `ABC_Strong` docstring spells the class `MyChildAbstractClas`, twice. The model produces the text the metaclass formats, with the full class name.
  - The `_get_cls_methods` docstring says dunder names are dropped when `nomagic` is false. The code drops them only when `nomagic` is true, and then drops every name containing `__` anywhere, not only trailing ones.
  - The `AssertionError` branch of `Wrapper.__init__` is modelled, and `Init`'s contract shows it cannot be reached: a keyword value is stored only when it is an instance of `wraptype`.

## Model

| member | source | states |
|---|---|---|
| Meta.HasDunderAt | src/sigmaepsilon/core/meta.py:8-9 | the scanning test for `"__" in n` holds exactly when some position of the name starts two underscores |
| Meta.IsCallable | src/sigmaepsilon/core/meta.py:8-9 | true iff the value is callable and no position of the name starts two underscores |
| Meta.ClsMethods | src/sigmaepsilon/core/meta.py:31-43 | a name is returned iff it is in the body with a callable value and, with `nomagic`, contains no `__` |
| Meta.NoMagicDropsInnerDunder | src/sigmaepsilon/core/meta.py:8-9 | the `nomagic` filter drops a name with `__` in the middle, not only dunder names |
| Meta.ClsAbstracts | src/sigmaepsilon/core/meta.py:45-50 | a class body (a plain dict) has no `__abstractmethods__`, so the result is always empty |
| Meta.OwnCallables | src/sigmaepsilon/core/meta.py:58-62 | exactly the entries of the base's `__dict__` that are callable and free of `__`, with their values |
| Meta.ByNameLastWins | src/sigmaepsilon/core/meta.py:57-62 | in a dict filled base by base under `__name__`, the entry of a name is the value of the last base with that name |
| Meta.BaseMethods | src/sigmaepsilon/core/meta.py:52-63 | keyed by exactly the bases' names; the entry of a name is the own callables of the last base with that name |
| Meta.BaseAbstracts | src/sigmaepsilon/core/meta.py:65-75 | keyed by exactly the bases' names; the entry of a name is the `__abstractmethods__` of the last base with that name |
| Meta.BaseAbstractsCollide | src/sigmaepsilon/core/meta.py:70-75 | two bases sharing a `__name__` leave one entry, the later base's |
| Meta.CheckStrong | src/sigmaepsilon/core/meta.py:93-110 | accepts iff no base has an abstract name that is still abstract on the class and not a callable of the body; otherwise reports such a name of the first such base |
| Meta.CheckSafe | src/sigmaepsilon/core/meta.py:127-139 | accepts iff no base has an attribute named like a non-`__` callable of the body; otherwise reports such a name of the first such base |
| Meta.CreateClass | src/sigmaepsilon/core/meta.py:93-139 | a class is built iff its policy accepts; Weak accepts all; a rejection is a `TypeError` whose text names the class, the method and the base as the metaclass formats it |
| Meta.Instantiate | src/sigmaepsilon/core/abstract.py:56-65 | a built class instantiates iff it has no abstract names left; otherwise the error lists exactly those |
| Meta.StrongAcceptsIff | src/sigmaepsilon/core/meta.py:96-109 | the per-base Strong check equals the whole-hierarchy rule: inherited abstract names still abstract on the class are all callables of the body |
| Meta.SafeAcceptsIff | src/sigmaepsilon/core/meta.py:130-138 | the per-base Safe check equals the whole-hierarchy rule: the body's non-`__` callables are disjoint from every base's attributes |
| Meta.StrongObligationMet | src/sigmaepsilon/core/meta.py:98-103 | an inherited abstract name is discharged iff it is no longer abstract on the class or the body holds a callable under it |
| Meta.StrongRejectsAbstractProperty | src/sigmaepsilon/core/meta.py:95-103 | re-declaring an inherited abstract name as a (non-callable) abstract property does not defer it: Strong rejects |
| Meta.SafeRejectsOverride | src/sigmaepsilon/core/meta.py:129-138 | under Safe, implementing a method a base declares abstract is a conflict |
| Meta.SafeIgnoresDunderAndData | src/sigmaepsilon/core/meta.py:129 | adding a `__` name or a non-callable to the body never changes the Safe verdict |
| Meta.NoBasesAccepted | src/sigmaepsilon/core/meta.py:96-110 | a class without bases is accepted by every policy |
| Abstract.RootDef | src/sigmaepsilon/core/abstract.py:8-67 | a root's class statement has no bases and no callables in its body |
| Abstract.RootBase | src/sigmaepsilon/core/abstract.py:121-150 | a root used as a base has no abstract names, and its own members and abstracts are attributes |
| Abstract.MetaclassNamesPlain | src/sigmaepsilon/core/meta.py:31-75 | none of the names a root's metaclass provides (`mro`, `ABCMeta`'s methods and registry, `ABCMeta_Weak`'s four static helpers) contains `__` |
| Abstract.SafeRejectsMetaclassName | src/sigmaepsilon/core/meta.py:129-138 | a Safe child of `ABC_Safe` defining `register`, `mro`, `_get_cls_methods` or any other name the root's metaclass provides is rejected |
| Abstract.CreateRoots | src/sigmaepsilon/core/abstract.py:8-150 | each root is created without error and bound to its own policy, with no abstract names |
| Abstract.WeakScenario | src/sigmaepsilon/core/abstract.py:31-65 | the Weak child is created with both abstract names; the full implementation instantiates; the partial one is blocked naming `abc_method_parent` |
| Abstract.OmittingUnmet | src/sigmaepsilon/core/abstract.py:108-116 | in the child that omits B, the only unmet obligation is `my_abstract_method_B` |
| Abstract.StrongScenario | src/sigmaepsilon/core/abstract.py:86-116 | deferring A and implementing B is accepted with A left abstract; omitting B is rejected with the message meta.py:104-108 formats for `MyChildAbstractClass` |
| Abstract.SafeChildConflicts | src/sigmaepsilon/core/abstract.py:136-148 | the documented child's only conflict with its parent is `funcParentSafe` |
| Abstract.SafeScenario | src/sigmaepsilon/core/abstract.py:136-148 | redefining `funcParentSafe` is rejected with the documented message |
| Wrapping.Wrap | src/sigmaepsilon/core/wrapping.py:100-107 | the object is stored when there is no `wraptype` or it is an instance of it; otherwise the wrapper is unchanged |
| Wrapping.Wraps | src/sigmaepsilon/core/wrapping.py:109-111 | true iff the stored reference is not `None` |
| Wrapping.Wrapped | src/sigmaepsilon/core/wrapping.py:95-98 | the `wrapped` property is `None` exactly when the wrapper wraps nothing |
| Wrapping.WrappedObj | src/sigmaepsilon/core/wrapping.py:113-114 | the same reference as the `wrapped` property |
| Wrapping.WrapRoundTrip | src/sigmaepsilon/core/wrapping.py:95-111 | after an accepted `wrap(v)` both getters return `v`, and `wraps` holds iff `v` is not `None` |
| Wrapping.WrapIdempotent | src/sigmaepsilon/core/wrapping.py:100-107 | wrapping the same object twice equals wrapping it once |
| Wrapping.FirstInstance | src/sigmaepsilon/core/wrapping.py:74-77 | the index of the first positional argument that is an instance of the type, or none when there is no such argument |
| Wrapping.Init | src/sigmaepsilon/core/wrapping.py:68-93 | without `wraptype` the keyword value is stored; otherwise a fitting keyword, then the first fitting positional, then the constructed object; the only error is the `ValueError` when construction raises |
| Wrapping.InitHoldsInstance | src/sigmaepsilon/core/wrapping.py:73-88 | with a `wraptype` and a constructor that yields instances, a constructed wrapper holds an instance of `wraptype` |
| Wrapping.InitDependsOnlyOnConfig | src/sigmaepsilon/core/wrapping.py:65-71 | two wrapper types with the same `wrapkey` and `wraptype` construct the same wrapped object from the same arguments |
| Wrapping.CustomWrapper | src/sigmaepsilon/core/wrapping.py:163-210 | the decorated type is named `WrapperType`, carries the given `wrapkey` and `wraptype`, and has the decorated type as its base |
| Wrapping.WrapperDecorator | src/sigmaepsilon/core/wrapping.py:213-238 | `wrapper` is `customwrapper` with the default `wrapkey` and `wraptype` |
| Wrapping.WrapObject | src/sigmaepsilon/core/wrapping.py:241-254 | `wrap(obj)` is a plain `Wrapper` holding `obj` |
| Wrapping.DecoratedTypeBindsKeyword | src/sigmaepsilon/core/wrapping.py:213-238 | a `wrapper`-decorated type stores the `wrap` keyword argument, whatever the positional arguments |
| Wrapping.GetAttr | src/sigmaepsilon/core/wrapping.py:119-130 | own attributes first, then the wrapped object's; the error is the `AttributeError` naming the wrapper class and the attribute, exactly when both fail |
| Wrapping.OwnNamesNotForwarded | src/sigmaepsilon/core/wrapping.py:100-130 | on a class whose lookup finds `wrap`, `wraps`, `wrapped_obj`, `wrapkey` and `wraptype`, reading them never reaches the wrapped object and never fails |
| Wrapping.ForwardingAfterWrap | src/sigmaepsilon/core/wrapping.py:100-130 | after wrapping `v`, an attribute not on the wrapper is read from `v`, and fails when `v` lacks it |
| Wrapping.GetItem | src/sigmaepsilon/core/wrapping.py:132-142 | the base type's indexing first, then the wrapped object's; the "not subscriptable" `TypeError` exactly when both fail |
| Wrapping.SetItem | src/sigmaepsilon/core/wrapping.py:144-154 | the base type's assignment if it accepts, else the wrapped object's; the "does not support item assignment" `TypeError` exactly when both fail |
| Wrapping.UnboundPlainWrapperNotSubscriptable | src/sigmaepsilon/core/wrapping.py:132-154 | a plain `Wrapper` holding `None` can neither be indexed nor assigned into |
| Wrapping.Str | src/sigmaepsilon/core/wrapping.py:159-160 | `str` of the wrapped object, or `"None"` when nothing is wrapped |
| Wrapping.Repr | src/sigmaepsilon/core/wrapping.py:156-157 | `repr` of the wrapped object, or `"None"` when nothing is wrapped |
| Misc.IndexSuffix | src/sigmaepsilon/core/misc.py:2-18 | the result is one of st/nd/rd/th, and "th" whenever the last two digits are 11, 12 or 13 |
| Misc.SuffixMatchesOrdinalRule | src/sigmaepsilon/core/misc.py:6-17 | on every integer the code agrees with the digit rule: tens digit 1 gives "th", else units 1/2/3 give st/nd/rd, else "th" |
| Misc.SuffixByLastTwoDigits | src/sigmaepsilon/core/misc.py:6-17 | two integers with the same last two digits get the same suffix |
| Misc.SuffixPeriodic | src/sigmaepsilon/core/misc.py:6-17 | adding any multiple of 100 leaves the suffix unchanged |
| Misc.SuffixExamples | tests/test_misc.py:9-40 | 1st, 2nd, 3rd, 4th, 11th, 12th, 13th, 21st, 22nd, 23rd, 24th |
| Alphabet.DecimalRoundTrip | src/sigmaepsilon/core/alphabet.py:88 | the decimal text `str` writes for an integer reads back as that integer |
| Alphabet.Ord | src/sigmaepsilon/core/alphabet.py:49 | `ord` succeeds iff the string has one character, and yields its code point |
| Alphabet.Range | src/sigmaepsilon/core/alphabet.py:62 | `range(lo, hi)` has `max(hi - lo, 0)` items, the `i`-th being `lo + i` |
| Alphabet.AlphabetStart | src/sigmaepsilon/core/alphabet.py:39-49 | an unknown alphabet is `ValueError("Invalid alphabet.")`; otherwise the given start (converted with `ord`) or the alphabet's default 0, 97, 0 or U+03B1 |
| Alphabet.AlphabetItem | src/sigmaepsilon/core/alphabet.py:50-52 | the generator fails iff its start fails, with the same error |
| Alphabet.AlphabetConsecutive | src/sigmaepsilon/core/alphabet.py:50-52 | the first item is the start and each item is one more than the previous |
| Alphabet.OrdRange | src/sigmaepsilon/core/alphabet.py:55-62 | with no stop or a stop equal to the start, `N` consecutive code points from the start; otherwise consecutive code points up to the stop; a start string that is not one character gives exactly the `TypeError` of `ord` |
| Alphabet.OrdRangeDescendingEmpty | src/sigmaepsilon/core/alphabet.py:60-62 | a stop below the start gives an empty list, whatever `N` is |
| Alphabet.LatinRange | src/sigmaepsilon/core/alphabet.py:65-68 | exactly `ordrange` with start defaulting to 97, for every start and stop; with no arguments, `N` letters from `a` |
| Alphabet.URange | src/sigmaepsilon/core/alphabet.py:71-76 | succeeds iff start and stop are one-character strings, and then equals `ordrange` on their code points (no stop: the start's, so `N` items); a bad start, else a bad stop, gives the `TypeError` of `ord` |
| Alphabet.GreekRange | src/sigmaepsilon/core/alphabet.py:79-80 | `N` consecutive code points from U+03B1 |
| Alphabet.ArabicRange | src/sigmaepsilon/core/alphabet.py:83-88 | as many items as the range has, the `i`-th being the decimal text of `start + i` |
| Alphabet.ArabicRangeReadsBack | src/sigmaepsilon/core/alphabet.py:83-88 | each item of `arabicrange` parses back to `start + i` |
| Infix.Call1 | src/sigmaepsilon/core/infix.py:27 | a one-argument call of the user's function raises `TypeError`; of a partial operator, it is the captured operator's two-argument call with the captured operand first |
| Infix.Call2 | src/sigmaepsilon/core/infix.py:38-39 | a two-argument call applies the user's function, returning its value or raising its exception; on a partial operator it raises `AttributeError` |
| Infix.Ror | src/sigmaepsilon/core/infix.py:26-27 | `op.__ror__(other)`, which `other \| op` reaches when `other`'s own `__or__` returns `NotImplemented`, is a new operator whose one-argument call is `op`'s function applied to `other` first |
| Infix.Rlshift | src/sigmaepsilon/core/infix.py:32-33 | `op.__rlshift__(other)`, reached by `other << op` under the same condition, is the same partial application |
| Infix.Or | src/sigmaepsilon/core/infix.py:29-30 | on a partial operator built from a user function, `p \| b` is that function applied to the captured operand and `b` |
| Infix.Rshift | src/sigmaepsilon/core/infix.py:35-36 | on a partial operator built from a user function, `p >> b` is that function applied to the captured operand and `b` |
| Infix.Call | src/sigmaepsilon/core/infix.py:38-39 | calling an operator with two arguments applies its function to them |
| Infix.InfixApplies | src/sigmaepsilon/core/infix.py:26-39 | the `__ror__`/`__or__` chain, the `__rlshift__`/`__rshift__` chain and `__call__` all compute `f(a, b)`, and raise whatever `f` raises, so `(a \| op) \| b` and `(a << op) >> b` do too when `a`'s own `__or__`/`__lshift__` returns `NotImplemented` |
| Infix.InfixReusable | src/sigmaepsilon/core/infix.py:26-30 | two partial applications of one operator do not affect each other or the operator |
| Infix.BareOperatorNeedsLeftOperand | src/sigmaepsilon/core/infix.py:29-30 | `op \| b` on a bare operator fails: its function lacks a second argument |
| Infix.InfixExamples | tests/test_infix.py:10-13 | `2 \| x \| 4 == 8` for multiplication and `2 << x >> 4 == 6` for addition |

## Left out

- The rest of the package is not part of this model: `config.py`, `__init__.py`, `formatting.py`, `io.py`, `decorate.py`, `thirdparty.py`, `testing.py`, `warning.py` and the documentation configuration. None of them is part of the policies, the wrapper or the helpers above.
- Python's class machinery is taken as input, not recomputed:
  - the method resolution order;
  - `ABCMeta`'s computation of `__abstractmethods__` on the new class;
  - the metaclass fallback of `hasattr` on a base.
  
  They are fields of `ClassDef` and `BaseClass`.
- Metaclass resolution when bases of different policies are mixed is not modelled. The policy is a parameter of `CreateClass`.
- Meta.Instantiate: the exact text of Python's "Can't instantiate abstract class" message is not modelled, nor the sorting of the names in it; only the set of missing names is.
- The validators report *some* offending name of the first offending base. Which one Python picks depends on the iteration order of its sets, which the model leaves open.
- `Wrapper.__hasattr__` is not modelled. It is never called by Python, since `hasattr` does not look it up. The branch of `__getattr__` that finds the name in the instance `__dict__` is folded into `OwnLookup`, which reads the wrapper's own attributes.
- The `super().__init__()` call of `Wrapper.__init__` is not modelled. The decorated base type's initialiser is outside the wrapper.
- Wrapping.GetAttr: the host's class lookup is an arbitrary oracle. That it finds the names `Wrapper` defines is the separate assumption `WellFormedClass`, used by `OwnNamesNotForwarded`.
- Wrapping.GetItem: the base type's indexing is an oracle keyed by the base type. It does not see the rest of the wrapper's state.
- Wrapping.SetItem: the base type's assignment is an oracle keyed by the base type. It does not see the rest of the wrapper's state. The model reports which object accepted the assignment, not the state change.
- Alphabet.OrdRange: `chr` is the identity on code points, so the `ValueError` that `chr` raises for a code outside 0..0x10FFFF (negative codes included) is not modelled.
- Alphabet.AlphabetItem: `chr` is the identity on code points, so the generator's `ValueError` for a code outside 0..0x10FFFF (negative codes included) is not modelled.
- Alphabet.OrdRange: a `stop` given as a string is not modelled. The source never converts it: `stop == start` is simply false, and `range(start, stop)` then raises a `TypeError`.
- Infix.InfixApplies: the model starts at the operator's own `__ror__`/`__rlshift__`. Python first tries the left operand's `__or__`/`__lshift__` and reaches the operator only when that returns `NotImplemented`, as `int`'s does. A left operand that handles `|` or `<<` itself, such as a NumPy array applying it elementwise, is not modelled. The same holds for the rows of `Infix.Ror`, `Infix.Rlshift` and `Infix.InfixReusable`.
- Infix.Ror: assumes the left operand's `__or__` returned `NotImplemented`, so that `a | op` reaches `op.__ror__(a)`.
- Infix.Rlshift: assumes the left operand's `__lshift__` returned `NotImplemented`, so that `a << op` reaches `op.__rlshift__(a)`.
- Infix.Call2: the one-argument lambda built by `__ror__`/`__rlshift__` takes a second argument as its `self` default. The model treats that case as an `AttributeError`, which is what happens when the second operand is not itself an operator.
