/**
 * The class definitions of the modelled files, written as data in the
 * fragment of `PySyntax`: `Employee`, `Manager(Employee)` and
 * `Developer(Employee)` of the payroll file, and `Product` of the
 * storefront file. Each method body is transcribed statement by statement.
 */
module SourceClasses {
  import opened Wrappers
  import opened PySyntax

  datatype ClassName = EmployeeClass | ManagerClass | DeveloperClass | ProductClass

  const Init: string := "__init__"
  const CalculateSalary: string := "calculate_salary"

  /** The single base class named in the class statement; `None` stands for `object`. */
  function Base(c: ClassName): (b: Option<ClassName>)
    ensures b.Some? ==> Depth(b.value) < Depth(c)
  {
    match c
    case ManagerClass => Some(EmployeeClass)
    case DeveloperClass => Some(EmployeeClass)
    case _ => None
  }

  /** How many classes of this table stand above `c` in its inheritance chain. */
  function Depth(c: ClassName): nat {
    match c
    case ManagerClass => 1
    case DeveloperClass => 1
    case _ => 0
  }

  /** The methods defined in the body of class `c` itself (not inherited ones). */
  function Methods(c: ClassName): map<string, Method> {
    match c
    case EmployeeClass =>
      map[Init := Method(2, [SetAttr("name", Arg(0)), SetAttr("salary", Arg(1))]),
          CalculateSalary := Method(0, [Return(SelfAttr("salary"))])]
    case ManagerClass =>
      map[Init := Method(3, [SuperInit([Arg(0), Arg(1)]), SetAttr("bonus", Arg(2))]),
          CalculateSalary := Method(0, [Return(Add(SelfAttr("salary"), SelfAttr("bonus")))])]
    case DeveloperClass =>
      map[Init := Method(4, [SuperInit([Arg(0), Arg(1)]),
                             SetAttr("overtime_hours", Arg(2)),
                             SetAttr("hourly_rate", Arg(3))]),
          CalculateSalary := Method(0, [Return(Add(SelfAttr("salary"),
                                                   Mul(SelfAttr("overtime_hours"), SelfAttr("hourly_rate"))))])]
    case ProductClass =>
      map[Init := Method(5, [SetAttr("product_id", Arg(0)),
                             SetAttr("name", Arg(1)),
                             SetAttr("price", Arg(2)),
                             SetAttr("stock", Arg(3)),
                             SetAttr("category", Arg(4))])]
  }
}
