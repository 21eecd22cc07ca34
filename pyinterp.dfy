/**
 * Python's semantics for the fragment: attribute lookup along the method
 * resolution order, evaluation of expressions against `self.__dict__`,
 * statement execution (including `super().__init__`), instantiation
 * `C(args...)` and the bound-method call `obj.name(args...)`.
 */
module PyInterp {
  import opened Wrappers
  import opened PySyntax
  import opened SourceClasses

  /** An object: the class it was created from and its attribute dictionary. */
  datatype Instance = Instance(cls: ClassName, attrs: Attrs)

  /** A method found by lookup, with the class whose body defines it. */
  datatype Found = Found(owner: ClassName, definition: Method)

  /** How a statement sequence ended. */
  datatype Signal = Fallthrough | Returned(value: Value) | Raised(error: PyError)

  /** The end of an execution: how it ended and the attribute dictionary at that point. */
  datatype Outcome = Outcome(signal: Signal, attrs: Attrs)

  /** What a call gives back: the returned value and the receiver afterwards. */
  datatype Answer = Answer(value: Value, receiver: Instance)

  /**
   * The method resolution order `C.__mro__` without `object`: the class itself,
   * then its base, then the base's base. With single inheritance this is the
   * chain of `Base` links, which is what the ensures clauses say.
   */
  function Mro(c: ClassName): (m: seq<ClassName>)
    ensures |m| > 0 && m[0] == c
    ensures forall k :: 0 <= k < |m| - 1 ==> Base(m[k]) == Some(m[k + 1])
    ensures Base(m[|m| - 1]) == None
    ensures forall k :: 0 <= k < |m| ==> Depth(m[k]) <= Depth(c)
    decreases Depth(c)
  {
    match Base(c)
    case None => [c]
    case Some(b) => [c] + Mro(b)
  }

  /** The position of the first class in `mro` whose own body defines `name`. */
  function FindIn(mro: seq<ClassName>, name: string): (r: Option<nat>)
    ensures r.Some? ==> r.value < |mro| && name in Methods(mro[r.value])
    ensures r.Some? ==> forall j :: 0 <= j < r.value ==> name !in Methods(mro[j])
    ensures r.None? <==> forall j :: 0 <= j < |mro| ==> name !in Methods(mro[j])
  {
    if mro == [] then None
    else if name in Methods(mro[0]) then Some(0)
    else match FindIn(mro[1..], name)
      case None => None
      case Some(k) => Some(k + 1)
  }

  /** Class attribute lookup `C.name`: the nearest definition along the MRO. */
  function Resolve(c: ClassName, name: string): (r: Option<Found>)
    ensures r.Some? ==> name in Methods(r.value.owner) && r.value.definition == Methods(r.value.owner)[name]
    ensures r.Some? ==> Depth(r.value.owner) <= Depth(c)
    ensures r.Some? ==> exists k :: 0 <= k < |Mro(c)| && Mro(c)[k] == r.value.owner &&
                                    forall j :: 0 <= j < k ==> name !in Methods(Mro(c)[j])
    ensures r.None? <==> forall a :: a in Mro(c) ==> name !in Methods(a)
  {
    var mro := Mro(c);
    match FindIn(mro, name)
    case None => None
    case Some(k) =>
      assert mro[k] == Mro(c)[k];
      Some(Found(mro[k], Methods(mro[k])[name]))
  }

  /** Evaluates `e` with the method's arguments `args` and `self.__dict__` equal to `attrs`. */
  function Eval(e: Expr, args: seq<Value>, attrs: Attrs): Result<Value, PyError> {
    match e
    case Arg(i) => if i < |args| then Ok(args[i]) else Err(NameError)
    case SelfAttr(a) => if a in attrs then Ok(attrs[a]) else Err(AttributeError(a))
    case Add(l, r) =>
      var lv :- Eval(l, args, attrs);
      var rv :- Eval(r, args, attrs);
      Plus(lv, rv)
    case Mul(l, r) =>
      var lv :- Eval(l, args, attrs);
      var rv :- Eval(r, args, attrs);
      Times(lv, rv)
  }

  /** Evaluates an argument list left to right, stopping at the first error. */
  function EvalAll(es: seq<Expr>, args: seq<Value>, attrs: Attrs): (r: Result<seq<Value>, PyError>)
    ensures r.Ok? ==> |r.value| == |es|
    ensures r.Ok? ==> forall k :: 0 <= k < |es| ==> Eval(es[k], args, attrs) == Ok(r.value[k])
    ensures (forall k :: 0 <= k < |es| ==> Eval(es[k], args, attrs).Ok?) ==> r.Ok?
    ensures r.Err? ==> exists k :: 0 <= k < |es| && Eval(es[k], args, attrs) == Err(r.error) &&
                                   forall j :: 0 <= j < k ==> Eval(es[j], args, attrs).Ok?
  {
    if es == [] then Ok([])
    else
      var v :- Eval(es[0], args, attrs);
      var vs :- EvalAll(es[1..], args, attrs);
      Ok([v] + vs)
  }

  /**
   * Runs `body`, a method defined in class `cls`, with arguments `args`
   * on an object whose attribute dictionary is `attrs`. `super()` inside
   * `cls` refers to `Base(cls)`; a `super().__init__` that reaches `object`
   * accepts no arguments.
   */
  function Exec(cls: ClassName, body: seq<Stmt>, args: seq<Value>, attrs: Attrs): Outcome
    decreases Depth(cls), |body|
  {
    if body == [] then Outcome(Fallthrough, attrs)
    else match body[0]
      case SetAttr(a, rhs) =>
        (match Eval(rhs, args, attrs)
         case Err(err) => Outcome(Raised(err), attrs)
         case Ok(v) => Exec(cls, body[1..], args, attrs[a := v]))
      case Return(res) =>
        (match Eval(res, args, attrs)
         case Err(err) => Outcome(Raised(err), attrs)
         case Ok(v) => Outcome(Returned(v), attrs))
      case SuperInit(es) =>
        (match EvalAll(es, args, attrs)
         case Err(err) => Outcome(Raised(err), attrs)
         case Ok(vs) =>
           var parentInit := if Base(cls).Some? then Resolve(Base(cls).value, Init) else None;
           match parentInit
           case None =>
             if vs == [] then Exec(cls, body[1..], args, attrs) else Outcome(Raised(TypeError), attrs)
           case Some(f) =>
             if |vs| != f.definition.arity then Outcome(Raised(TypeError), attrs)
             else
               var inner := Exec(f.owner, f.definition.body, vs, attrs);
               if inner.signal.Raised? then inner
               else Exec(cls, body[1..], args, inner.attrs))
  }

  /**
   * Instantiation `c(args...)`: a fresh object with an empty dictionary, on
   * which the `__init__` found along the MRO runs. `object.__init__` takes no
   * arguments, and an `__init__` that returns something other than `None`
   * is a `TypeError`.
   */
  function Construct(c: ClassName, args: seq<Value>): Result<Instance, PyError> {
    match Resolve(c, Init)
    case None => if args == [] then Ok(Instance(c, map[])) else Err(TypeError)
    case Some(f) =>
      if |args| != f.definition.arity then Err(TypeError)
      else
        var out := Exec(f.owner, f.definition.body, args, map[]);
        match out.signal
        case Raised(err) => Err(err)
        case Returned(v) => if v == NoneValue then Ok(Instance(c, out.attrs)) else Err(TypeError)
        case Fallthrough => Ok(Instance(c, out.attrs))
  }

  /**
   * The call `obj.name(args...)`. An instance attribute of that name shadows
   * the class's method; none of the fragment's values is callable, so that is
   * a `TypeError`.
   */
  function Call(obj: Instance, name: string, args: seq<Value>): Result<Answer, PyError> {
    if name in obj.attrs then Err(TypeError)
    else match Resolve(obj.cls, name)
      case None => Err(AttributeError(name))
      case Some(f) =>
        if |args| != f.definition.arity then Err(TypeError)
        else
          var out := Exec(f.owner, f.definition.body, args, obj.attrs);
          match out.signal
          case Raised(err) => Err(err)
          case Returned(v) => Ok(Answer(v, Instance(obj.cls, out.attrs)))
          case Fallthrough => Ok(Answer(NoneValue, Instance(obj.cls, out.attrs)))
  }

  /** A body of `return` statements only leaves the receiver's dictionary as it was. */
  lemma AssignsNothingKeepsAttrs(cls: ClassName, body: seq<Stmt>, args: seq<Value>, attrs: Attrs)
    requires AssignsNothing(body)
    ensures Exec(cls, body, args, attrs).attrs == attrs
  {
  }

  /** Calling a method whose body assigns nothing returns the receiver unchanged. */
  lemma CallOfPureMethodKeepsReceiver(obj: Instance, name: string, args: seq<Value>)
    requires forall a :: a in Mro(obj.cls) && name in Methods(a) ==> AssignsNothing(Methods(a)[name].body)
    ensures Call(obj, name, args).Ok? ==> Call(obj, name, args).value.receiver == obj
  {
    if name !in obj.attrs {
      match Resolve(obj.cls, name)
      case None =>
      case Some(f) =>
        assert f.owner in Mro(obj.cls);
        AssignsNothingKeepsAttrs(f.owner, f.definition.body, args, obj.attrs);
    }
  }
}
