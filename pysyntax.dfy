/**
 * The fragment of Python that the two modelled files are written in: values
 * held in instance attributes, the expressions that appear on the right of an
 * assignment or a `return`, and the three statement forms the method bodies
 * use (`self.attr = e`, `super().__init__(...)`, `return e`).
 */
module PySyntax {
  import opened Wrappers

  /**
   * A Python value. Python's `int` and `float` are both represented by exact
   * reals: every number the modelled code uses is integral, and rounding is
   * not part of what the code means to compute.
   */
  datatype Value = NoneValue | Str(s: string) | Num(x: real)

  /** The errors the fragment can raise. */
  datatype PyError =
    | AttributeError(attr: string)  // an attribute read before it was ever assigned
    | TypeError                     // wrong number of arguments, or unsupported operand types
    | NameError                     // a parameter position the method does not have

  /** An instance's `__dict__`: attribute name to value. */
  type Attrs = map<string, Value>

  datatype Expr =
    | Arg(index: nat)               // the index-th parameter after `self`
    | SelfAttr(attr: string)        // `self.attr`
    | Add(left: Expr, right: Expr)  // `left + right`
    | Mul(left: Expr, right: Expr)  // `left * right`

  datatype Stmt =
    | SetAttr(attr: string, rhs: Expr)  // `self.attr = rhs`
    | SuperInit(args: seq<Expr>)        // `super().__init__(args...)`
    | Return(result: Expr)              // `return result`

  /** A method: how many parameters it takes after `self`, and its body. */
  datatype Method = Method(arity: nat, body: seq<Stmt>)

  /** Python's `+`: numeric addition or string concatenation. */
  function Plus(a: Value, b: Value): Result<Value, PyError>
  {
    match (a, b)
    case (Num(x), Num(y)) => Ok(Num(x + y))
    case (Str(s), Str(t)) => Ok(Str(s + t))
    case _ => Err(TypeError)
  }

  /** Python's `*` on two numbers; any other operand pair is a `TypeError` here. */
  function Times(a: Value, b: Value): Result<Value, PyError>
  {
    if a.Num? && b.Num? then Ok(Num(a.x * b.x)) else Err(TypeError)
  }

  /** True when no statement of `body` assigns an attribute or runs another initialiser. */
  predicate AssignsNothing(body: seq<Stmt>) {
    forall k :: 0 <= k < |body| ==> body[k].Return?
  }
}
