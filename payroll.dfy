/**
 * The payroll model: one "salary-computable" capability with three closed
 * variants. A base employee earns the base salary, a manager adds a bonus,
 * a developer adds overtime hours times an hourly rate. Amounts are exact
 * reals.
 */
module Payroll {

  datatype Employee =
    | Employee(name: string, salary: real)
    | Manager(name: string, salary: real, bonus: real)
    | Developer(name: string, salary: real, overtimeHours: real, hourlyRate: real)

  /** The override of `calculate_salary` that the object's variant selects. */
  function CalculateSalary(e: Employee): real {
    match e
    case Employee(_, salary) => salary
    case Manager(_, salary, bonus) => salary + bonus
    case Developer(_, salary, hours, rate) => salary + hours * rate
  }

  /** The hypothesis under which pay is bounded below: salary, bonus, hours and rate all non-negative. */
  predicate NonNegativeFields(e: Employee) {
    e.salary >= 0.0 &&
    (e.Manager? ==> e.bonus >= 0.0) &&
    (e.Developer? ==> e.overtimeHours >= 0.0 && e.hourlyRate >= 0.0)
  }

  /** A developer without overtime, or with a zero rate, earns exactly the base salary. */
  lemma DeveloperWithoutOvertimePayEarnsBase(name: string, salary: real, hours: real, rate: real)
    requires hours == 0.0 || rate == 0.0
    ensures CalculateSalary(Developer(name, salary, hours, rate)) == salary
  {
  }

  /** A non-negative bonus never lowers a manager's pay below the base salary. */
  lemma ManagerEarnsAtLeastBase(name: string, salary: real, bonus: real)
    requires bonus >= 0.0
    ensures CalculateSalary(Manager(name, salary, bonus)) >= salary
  {
  }

  /** Non-negative hours at a non-negative rate never lower a developer's pay below the base salary. */
  lemma DeveloperEarnsAtLeastBase(name: string, salary: real, hours: real, rate: real)
    requires hours >= 0.0 && rate >= 0.0
    ensures CalculateSalary(Developer(name, salary, hours, rate)) >= salary
  {
  }

  /** With non-negative fields every variant earns at least its base salary, so never a negative amount. */
  lemma SalaryAtLeastBase(e: Employee)
    requires NonNegativeFields(e)
    ensures CalculateSalary(e) >= e.salary >= 0.0
  {
    match e
    case Employee(_, _) =>
    case Manager(n, s, b) => ManagerEarnsAtLeastBase(n, s, b);
    case Developer(n, s, h, r) => DeveloperEarnsAtLeastBase(n, s, h, r);
  }

  /** The pay depends on the numeric fields only, never on the name. */
  lemma SalaryIgnoresName(e: Employee, other: string)
    ensures CalculateSalary(e.(name := other)) == CalculateSalary(e)
  {
  }

  /** The two objects the example script builds, and what they earn. */
  lemma ScriptExamples()
    ensures CalculateSalary(Manager("Иван Иванов", 50000.0, 15000.0)) == 65000.0
    ensures CalculateSalary(Developer("Петр Петров", 40000.0, 10.0, 500.0)) == 45000.0
  {
  }
}
