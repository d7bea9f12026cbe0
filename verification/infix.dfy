/**
 `InfixOperator` of `sigmaepsilon.core.infix`: a binary function used as an
 infix operator, `a | op | b` or `a << op >> b`. The left operator captures
 its left operand in a new one-argument operator; the right operator calls it.
 */
module Infix {
  import opened Python

  /** An operator and the function it holds: the user's two-argument function,
      or the one-argument lambda `__ror__`/`__rlshift__` builds around an
      operator and a captured left operand. The user's function returns a
      value or raises; what it raises passes through every operator. */
  datatype InfixOperator<!T> =
    | Binary(f: (T, T) -> Result<T>)
    | Partial(op: InfixOperator<T>, left: T)

  /** Calling the held function with one argument. The user's function is
      missing its second argument; the lambda passes the captured operand
      first. */
  function Call1<T>(op: InfixOperator<T>, x: T): (r: Result<T>)
    ensures op.Binary? ==> r.Err? && r.error.TypeError?
    ensures op.Partial? ==> r == Call2(op.op, op.left, x)
  {
    match op
    case Binary(_) => Err(TypeError("missing 1 required positional argument"))
    case Partial(inner, left) => Call2(inner, left, x)
  }

  /** Calling the held function with two arguments. The lambda would take the
      second argument for its `self` default, which has no `_function` (the
      operands are not themselves operators). */
  function Call2<T>(op: InfixOperator<T>, a: T, b: T): (r: Result<T>)
    ensures op.Binary? ==> r == op.f(a, b)
    ensures op.Partial? ==> r.Err? && r.error.AttributeError?
  {
    match op
    case Binary(f) => f(a, b)
    case Partial(_, _) => Err(AttributeError("object has no attribute '_function'"))
  }

  /** `op.__ror__(other)`, which `other | op` reaches when `other`'s own
      `__or__` returns `NotImplemented`: a new operator that calls `op`'s
      function with `other` first. `op` itself is left as it was. */
  function Ror<T(!new)>(op: InfixOperator<T>, other: T): (r: InfixOperator<T>)
    ensures forall x :: Call1(r, x) == Call2(op, other, x)
    ensures r != op
  {
    var r := Partial(op, other);
    assert op < r;
    r
  }

  /** `op.__rlshift__(other)`, reached by `other << op` under the same
      condition on `other.__lshift__`: the same partial application. */
  function Rlshift<T(!new)>(op: InfixOperator<T>, other: T): (r: InfixOperator<T>)
    ensures forall x :: Call1(r, x) == Call2(op, other, x)
    ensures r != op
  {
    var r := Partial(op, other);
    assert op < r;
    r
  }

  /** `op | other`: calls the held function with `other`. */
  function Or<T>(op: InfixOperator<T>, other: T): (r: Result<T>)
    ensures op.Partial? && op.op.Binary? ==> r == op.op.f(op.left, other)
  {
    Call1(op, other)
  }

  /** `op >> other`: calls the held function with `other`. */
  function Rshift<T>(op: InfixOperator<T>, other: T): (r: Result<T>)
    ensures op.Partial? && op.op.Binary? ==> r == op.op.f(op.left, other)
  {
    Call1(op, other)
  }

  /** `op(a, b)`. */
  function Call<T>(op: InfixOperator<T>, a: T, b: T): (r: Result<T>)
    ensures op.Binary? ==> r == op.f(a, b)
  {
    Call2(op, a, b)
  }

  /** `(a | op) | b`, `(a << op) >> b` and `op(a, b)` all compute `f(a, b)`,
      with the left operand as the first argument, and raise what it raises. */
  lemma InfixApplies<T(!new)>(f: (T, T) -> Result<T>, a: T, b: T)
    ensures Or(Ror(Binary(f), a), b) == f(a, b)
    ensures Rshift(Rlshift(Binary(f), a), b) == f(a, b)
    ensures Call(Binary(f), a, b) == f(a, b)
  {
  }

  /** The operator can be reused: two partial applications of the same operator
      do not affect each other. */
  lemma InfixReusable<T(!new)>(f: (T, T) -> Result<T>, a: T, b: T, c: T, d: T)
    ensures var op := Binary(f);
            var p := Ror(op, a);
            var q := Ror(op, c);
            Or(p, b) == f(a, b) && Or(q, d) == f(c, d) && Call(op, a, b) == f(a, b)
  {
  }

  /** A bare operator used on the right of `|` has no left operand to apply. */
  lemma BareOperatorNeedsLeftOperand<T>(f: (T, T) -> Result<T>, b: T)
    ensures Or(Binary(f), b).Err?
  {
  }

  /** The examples of the documentation and the unit test. */
  lemma InfixExamples()
    ensures Or(Ror(Binary((x: int, y: int) => Ok(x * y)), 2), 4) == Ok(8)
    ensures Rshift(Rlshift(Binary((x: int, y: int) => Ok(x + y)), 2), 4) == Ok(6)
  {
  }
}
