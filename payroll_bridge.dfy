/**
 * Ties the closed-variant payroll model to the Python class definitions run
 * by `PyInterp`: building an object through `__init__` (with its
 * `super().__init__` call) gives the dictionary of the datatype value, and
 * the `calculate_salary` that dynamic dispatch selects returns what
 * `Payroll.CalculateSalary` computes, without touching the object.
 */
module PayrollBridge {
  import opened Wrappers
  import opened PySyntax
  import opened SourceClasses
  import opened PyInterp
  import Payroll

  function ClassOf(e: Payroll.Employee): ClassName {
    match e
    case Employee(_, _) => EmployeeClass
    case Manager(_, _, _) => ManagerClass
    case Developer(_, _, _, _) => DeveloperClass
  }

  /** The constructor call that builds `e`: its arguments in declaration order. */
  function CtorArgs(e: Payroll.Employee): seq<Value> {
    match e
    case Employee(n, s) => [Str(n), Num(s)]
    case Manager(n, s, b) => [Str(n), Num(s), Num(b)]
    case Developer(n, s, h, r) => [Str(n), Num(s), Num(h), Num(r)]
  }

  /** The Python object that corresponds to `e`. */
  function ToObject(e: Payroll.Employee): Instance {
    var base := map["name" := Str(e.name), "salary" := Num(e.salary)];
    match e
    case Employee(_, _) => Instance(EmployeeClass, base)
    case Manager(_, _, b) => Instance(ManagerClass, base["bonus" := Num(b)])
    case Developer(_, _, h, r) =>
      Instance(DeveloperClass, base["overtime_hours" := Num(h)]["hourly_rate" := Num(r)])
  }

  /** Reads a payroll object back, if it has the fields its class sets with the expected kinds of value. */
  function FromObject(o: Instance): Option<Payroll.Employee> {
    var a := o.attrs;
    if CalculateSalary in a || "name" !in a || "salary" !in a || !a["name"].Str? || !a["salary"].Num? then None
    else
      match o.cls
      case EmployeeClass => Some(Payroll.Employee(a["name"].s, a["salary"].x))
      case ManagerClass =>
        if "bonus" in a && a["bonus"].Num?
        then Some(Payroll.Manager(a["name"].s, a["salary"].x, a["bonus"].x))
        else None
      case DeveloperClass =>
        if "overtime_hours" in a && a["overtime_hours"].Num? && "hourly_rate" in a && a["hourly_rate"].Num?
        then Some(Payroll.Developer(a["name"].s, a["salary"].x, a["overtime_hours"].x, a["hourly_rate"].x))
        else None
      case ProductClass => None
  }

  /** `Employee(name, salary)` stores both arguments verbatim, whatever they are. */
  lemma EmployeeInitStoresArgs(name: Value, salary: Value)
    ensures Construct(EmployeeClass, [name, salary])
         == Ok(Instance(EmployeeClass, map["name" := name, "salary" := salary]))
  {
  }

  /** The argument list `(name, salary)` that both subclasses pass to `super().__init__`. */
  lemma SuperArgsEvaluate(args: seq<Value>)
    requires |args| >= 2
    ensures EvalAll([Arg(0), Arg(1)], args, map[]) == Ok([args[0], args[1]])
  {
    var r := EvalAll([Arg(0), Arg(1)], args, map[]);
    assert r.Ok? && r.value == [args[0], args[1]] by {
      assert [Arg(0), Arg(1)][1..] == [Arg(1)] && [Arg(1)][1..] == [];
      assert Eval(Arg(0), args, map[]) == Ok(args[0]);
      assert Eval(Arg(1), args, map[]) == Ok(args[1]);
      assert EvalAll([], args, map[]) == Ok([]);
      assert EvalAll([Arg(1)], args, map[]).Ok?;
      assert EvalAll([Arg(1)], args, map[]).value == [args[1]];
    }
  }

  /**
   * `Manager(name, salary, bonus)` leaves `name` and `salary` exactly as
   * `Employee.__init__` sets them, then adds `bonus`.
   */
  lemma ManagerInitExtendsBase(name: Value, salary: Value, bonus: Value)
    ensures Construct(ManagerClass, [name, salary, bonus])
         == Ok(Instance(ManagerClass, Construct(EmployeeClass, [name, salary]).value.attrs["bonus" := bonus]))
  {
    EmployeeInitStoresArgs(name, salary);
    var args := [name, salary, bonus];
    var body := Methods(ManagerClass)[Init].body;
    var baseInit := Methods(EmployeeClass)[Init].body;
    var baseAttrs := map["name" := name, "salary" := salary];
    assert Mro(ManagerClass) == [ManagerClass, EmployeeClass];
    assert Mro(EmployeeClass) == [EmployeeClass];
    SuperArgsEvaluate(args);
    assert Exec(EmployeeClass, baseInit, [name, salary], map[]) == Outcome(Fallthrough, baseAttrs) by {
      assert Exec(EmployeeClass, baseInit[1..], [name, salary], map["name" := name])
          == Exec(EmployeeClass, [], [name, salary], baseAttrs);
    }
    calc {
      Exec(ManagerClass, body, args, map[]);
      Exec(ManagerClass, body[1..], args, baseAttrs);
      Exec(ManagerClass, [], args, baseAttrs["bonus" := bonus]);
    }
  }

  /**
   * `Developer(name, salary, hours, rate)` leaves `name` and `salary` exactly
   * as `Employee.__init__` sets them, then adds `overtime_hours` and `hourly_rate`.
   */
  lemma DeveloperInitExtendsBase(name: Value, salary: Value, hours: Value, rate: Value)
    ensures Construct(DeveloperClass, [name, salary, hours, rate])
         == Ok(Instance(DeveloperClass,
                        Construct(EmployeeClass, [name, salary]).value.attrs["overtime_hours" := hours]["hourly_rate" := rate]))
  {
    EmployeeInitStoresArgs(name, salary);
    var args := [name, salary, hours, rate];
    var body := Methods(DeveloperClass)[Init].body;
    var baseInit := Methods(EmployeeClass)[Init].body;
    var baseAttrs := map["name" := name, "salary" := salary];
    assert Mro(DeveloperClass) == [DeveloperClass, EmployeeClass];
    assert Mro(EmployeeClass) == [EmployeeClass];
    SuperArgsEvaluate(args);
    assert Exec(EmployeeClass, baseInit, [name, salary], map[]) == Outcome(Fallthrough, baseAttrs) by {
      assert Exec(EmployeeClass, baseInit[1..], [name, salary], map["name" := name])
          == Exec(EmployeeClass, [], [name, salary], baseAttrs);
    }
    calc {
      Exec(DeveloperClass, body, args, map[]);
      Exec(DeveloperClass, body[1..], args, baseAttrs);
      Exec(DeveloperClass, body[2..], args, baseAttrs["overtime_hours" := hours]);
      Exec(DeveloperClass, [], args, baseAttrs["overtime_hours" := hours]["hourly_rate" := rate]);
    }
  }

  /** Building the object for `e` through its class's constructor gives exactly `ToObject(e)`. */
  lemma ConstructBuildsObject(e: Payroll.Employee)
    ensures Construct(ClassOf(e), CtorArgs(e)) == Ok(ToObject(e))
  {
    var base := map["name" := Str(e.name), "salary" := Num(e.salary)];
    EmployeeInitStoresArgs(Str(e.name), Num(e.salary));
    match e
    case Employee(n, s) =>
    case Manager(n, s, b) =>
      ManagerInitExtendsBase(Str(n), Num(s), Num(b));
      assert ToObject(e) == Instance(ManagerClass, base["bonus" := Num(b)]);
    case Developer(n, s, h, r) =>
      DeveloperInitExtendsBase(Str(n), Num(s), Num(h), Num(r));
      assert ToObject(e) == Instance(DeveloperClass, base["overtime_hours" := Num(h)]["hourly_rate" := Num(r)]);
  }

  /** The three constructors reject a wrong number of arguments and accept any values otherwise. */
  lemma PayrollInitChecksOnlyArity(c: ClassName, args: seq<Value>)
    requires c != ProductClass
    ensures Construct(c, args).Ok? <==> |args| == Methods(c)[Init].arity
    ensures !Construct(c, args).Ok? ==> Construct(c, args) == Err(TypeError)
  {
    assert Mro(c)[0] == c;
    assert Resolve(c, Init) == Some(Found(c, Methods(c)[Init]));
    if |args| == Methods(c)[Init].arity {
      match c
      case EmployeeClass =>
        assert args == [args[0], args[1]];
        EmployeeInitStoresArgs(args[0], args[1]);
      case ManagerClass =>
        assert args == [args[0], args[1], args[2]];
        ManagerInitExtendsBase(args[0], args[1], args[2]);
      case DeveloperClass =>
        assert args == [args[0], args[1], args[2], args[3]];
        DeveloperInitExtendsBase(args[0], args[1], args[2], args[3]);
    } else {
      assert Construct(c, args) == Err(TypeError);
    }
  }

  /** Reading back the object built for `e` gives `e`. */
  lemma ReadBack(e: Payroll.Employee)
    ensures FromObject(ToObject(e)) == Some(e)
  {
  }

  /**
   * On every object that reads back as a payroll value `e`, the
   * `calculate_salary` selected by dispatch returns `CalculateSalary(e)`
   * and leaves the object as it was.
   */
  lemma DispatchComputesSalary(o: Instance)
    requires FromObject(o).Some?
    ensures Call(o, CalculateSalary, []) == Ok(Answer(Num(Payroll.CalculateSalary(FromObject(o).value)), o))
  {
    var a := o.attrs;
    assert Mro(o.cls)[0] == o.cls;
    match o.cls
    case EmployeeClass =>
      assert Eval(SelfAttr("salary"), [], a) == Ok(a["salary"]);
    case ManagerClass =>
      assert Eval(Add(SelfAttr("salary"), SelfAttr("bonus")), [], a) == Ok(Num(a["salary"].x + a["bonus"].x));
    case DeveloperClass =>
      var salary, hours, rate := a["salary"].x, a["overtime_hours"].x, a["hourly_rate"].x;
      assert FromObject(o).value == Payroll.Developer(a["name"].s, salary, hours, rate);
      DeveloperPayEvaluates(a, salary, hours, rate);
      var body := Methods(DeveloperClass)[CalculateSalary].body;
      assert Exec(DeveloperClass, body, [], a) == Outcome(Returned(Num(salary + hours * rate)), a);
      assert Payroll.CalculateSalary(FromObject(o).value) == salary + hours * rate;
      assert Resolve(DeveloperClass, CalculateSalary) == Some(Found(DeveloperClass, Methods(DeveloperClass)[CalculateSalary]));
  }

  /** `self.salary + (self.overtime_hours * self.hourly_rate)` on numeric attributes. */
  lemma DeveloperPayEvaluates(a: Attrs, salary: real, hours: real, rate: real)
    requires "salary" in a && "overtime_hours" in a && "hourly_rate" in a
    requires a["salary"] == Num(salary) && a["overtime_hours"] == Num(hours) && a["hourly_rate"] == Num(rate)
    ensures Eval(Add(SelfAttr("salary"), Mul(SelfAttr("overtime_hours"), SelfAttr("hourly_rate"))), [], a)
         == Ok(Num(salary + hours * rate))
  {
    var pay := Mul(SelfAttr("overtime_hours"), SelfAttr("hourly_rate"));
    assert Eval(SelfAttr("salary"), [], a) == Ok(Num(salary));
    assert Eval(SelfAttr("overtime_hours"), [], a) == Ok(Num(hours));
    assert Eval(SelfAttr("hourly_rate"), [], a) == Ok(Num(rate));
    assert Eval(pay, [], a) == Times(Num(hours), Num(rate));
    assert Times(Num(hours), Num(rate)).Ok? && Times(Num(hours), Num(rate)).value == Num(hours * rate);
    assert Eval(pay, [], a) == Ok(Num(hours * rate));
    assert Eval(Add(SelfAttr("salary"), pay), [], a) == Plus(Num(salary), Num(hours * rate));
  }

  /** The object built for `e` earns `CalculateSalary(e)` under dispatch. */
  lemma SalaryOfBuiltObject(e: Payroll.Employee)
    ensures Call(ToObject(e), CalculateSalary, []) == Ok(Answer(Num(Payroll.CalculateSalary(e)), ToObject(e)))
  {
    ReadBack(e);
    DispatchComputesSalary(ToObject(e));
  }

  /** No override of `calculate_salary` assigns an attribute: a successful call never changes the object. */
  lemma CalculateSalaryHasNoSideEffects(o: Instance, args: seq<Value>)
    ensures Call(o, CalculateSalary, args).Ok? ==> Call(o, CalculateSalary, args).value.receiver == o
  {
    forall a | a in Mro(o.cls) && CalculateSalary in Methods(a)
      ensures AssignsNothing(Methods(a)[CalculateSalary].body)
    {
    }
    CallOfPureMethodKeepsReceiver(o, CalculateSalary, args);
  }

  /** The example script, run through construction and dispatch: 65000 and 45000. */
  lemma ScriptExamplesThroughDispatch()
    ensures Construct(ManagerClass, [Str("Иван Иванов"), Num(50000.0), Num(15000.0)]).Ok?
    ensures Call(Construct(ManagerClass, [Str("Иван Иванов"), Num(50000.0), Num(15000.0)]).value,
                 CalculateSalary, []) == Ok(Answer(Num(65000.0), Construct(ManagerClass, [Str("Иван Иванов"), Num(50000.0), Num(15000.0)]).value))
    ensures Construct(DeveloperClass, [Str("Петр Петров"), Num(40000.0), Num(10.0), Num(500.0)]).Ok?
    ensures Call(Construct(DeveloperClass, [Str("Петр Петров"), Num(40000.0), Num(10.0), Num(500.0)]).value,
                 CalculateSalary, []).Ok?
    ensures Call(Construct(DeveloperClass, [Str("Петр Петров"), Num(40000.0), Num(10.0), Num(500.0)]).value,
                 CalculateSalary, []).value.value == Num(45000.0)
  {
    var m := Payroll.Manager("Иван Иванов", 50000.0, 15000.0);
    var d := Payroll.Developer("Петр Петров", 40000.0, 10.0, 500.0);
    ConstructBuildsObject(m);
    ConstructBuildsObject(d);
    SalaryOfBuiltObject(m);
    SalaryOfBuiltObject(d);
  }
}
