# Payroll variants and the product record

This project models two small object models of a Python teaching repository
and proves what their code computes.

- **Payroll** (`1.py`): `Employee(name, salary)` earns its base salary;
  `Manager(Employee)` adds a `bonus`; `Developer(Employee)` adds
  `overtime_hours * hourly_rate`. Both subclasses call
  `super().__init__(name, salary)` before setting their own fields.
  The module `Payroll` models the three variants as one datatype with three
  constructors and the function `CalculateSalary`.
- **Product** (`3.py`): `Product(product_id, name, price, stock, category)`
  stores its five arguments as attributes, unvalidated. The module `Store`
  models it as a Dafny class whose constructor fixes each field.

The closed-variant datatype is checked against an independent definition: a
small interpreter (`PySyntax`, `SourceClasses`, `PyInterp`) for the fragment
of Python the two files are written in. It models instance dictionaries,
lookup along the method resolution order, `super().__init__`, attribute
assignment, `return`, `+` and `*`. The four class bodies are transcribed
as data in `SourceClasses.Methods`. `PayrollBridge` proves three things:

- building an object through the Python constructors gives the dictionary of
  the datatype value;
- the `calculate_salary` that dispatch selects returns `CalculateSalary`;
- no override changes the object.

`Store` proves that the `Product` class holds the values Python's `__init__`
stores.

Files: `wrappers.dfy` (Option, Result), `pysyntax.dfy`, `source_classes.dfy`,
`pyinterp.dfy`, `payroll.dfy`, `payroll_bridge.dfy`, `product.dfy`.

The docstrings type the fields (`price` as float, `stock` as int, `salary`
as float) but state no range, and the constructors check nothing. Any value
is accepted, and only a wrong number of arguments fails
(`Store.ProductInitChecksOnlyArity`, `PayrollBridge.PayrollInitChecksOnlyArity`).
`calculate_salary` is non-negative when the fields are non-negative, which is
the precondition of `Payroll.SalaryAtLeastBase`.

## Model

| member | source | states |
|---|---|---|
| `Payroll.DeveloperWithoutOvertimePayEarnsBase` | 1.py:92 | a developer with zero overtime hours, or a zero hourly rate, earns exactly the base salary |
| `Payroll.ManagerEarnsAtLeastBase` | 1.py:58 | with a non-negative bonus a manager earns at least the base salary |
| `Payroll.DeveloperEarnsAtLeastBase` | 1.py:92 | with non-negative hours and rate a developer earns at least the base salary |
| `Payroll.SalaryAtLeastBase` | 1.py:21-92 | for every variant with non-negative fields, the computed salary is at least the base salary, which is non-negative |
| `Payroll.SalaryIgnoresName` | 1.py:21-92 | the salary depends only on the numeric fields, never on the name |
| `Payroll.ScriptExamples` | 1.py:95-96 | the manager (50000, bonus 15000) earns 65000; the developer (40000, 10 hours at 500) earns 45000 |
| `PyInterp.Mro` | 1.py:30 | the lookup order starts at the class and follows each class's single base up to `object`, never going deeper than the class |
| `PyInterp.FindIn` | 1.py:21-92 | finds the first class in the lookup order whose own body defines the name; nothing is found only when no class in the order defines it |
| `PyInterp.Resolve` | 1.py:51-58 | the method found is the one defined in the owning class's body; the owner stands in the lookup order of the class and no class before it defines the name, so a subclass's override wins over the inherited definition; lookup fails only when no class in the chain defines the name |
| `PyInterp.EvalAll` | 1.py:47 | arguments are evaluated left to right: a successful list has one value per expression, each the value of its expression; the list succeeds whenever every expression does; a failing list raises the error of its first failing expression, all earlier ones having succeeded |
| `PyInterp.AssignsNothingKeepsAttrs` | 1.py:21-28 | running a body made only of `return` statements leaves the attribute dictionary unchanged |
| `PyInterp.CallOfPureMethodKeepsReceiver` | 1.py:21-92 | a successful call of a method whose every definition in the chain assigns nothing returns the receiver unchanged |
| `PayrollBridge.SuperArgsEvaluate` | 1.py:80 | the argument list `(name, salary)` passed to `super().__init__` evaluates to the first two constructor arguments |
| `PayrollBridge.EmployeeInitStoresArgs` | 1.py:10-19 | `Employee(name, salary)` gives an object whose dictionary is exactly `{name, salary}` holding the arguments verbatim, for any values |
| `PayrollBridge.ManagerInitExtendsBase` | 1.py:38-49 | `Manager(name, salary, bonus)` gives exactly the dictionary `Employee(name, salary)` gives, plus `bonus` |
| `PayrollBridge.DeveloperInitExtendsBase` | 1.py:69-82 | `Developer(name, salary, hours, rate)` gives exactly the dictionary `Employee(name, salary)` gives, plus `overtime_hours` and `hourly_rate` |
| `PayrollBridge.ConstructBuildsObject` | 1.py:10-82 | constructing any payroll value through its class's `__init__` yields exactly the object that corresponds to it |
| `PayrollBridge.PayrollInitChecksOnlyArity` | 1.py:38-82 | the three payroll constructors succeed exactly when given their number of arguments (2, 3, 4), whatever the values; otherwise they raise `TypeError` |
| `PayrollBridge.ReadBack` | 1.py:18-82 | the object built for a payroll value reads back as that same value: every field is kept |
| `PayrollBridge.DeveloperPayEvaluates` | 1.py:92 | `self.salary + (self.overtime_hours * self.hourly_rate)` evaluates to salary plus hours times rate |
| `PayrollBridge.DispatchComputesSalary` | 1.py:21-92 | on every object that reads back as a payroll value, the override dispatch selects returns `CalculateSalary` of that value (salary; salary + bonus; salary + hours * rate) and leaves the object as it was |
| `PayrollBridge.SalaryOfBuiltObject` | 1.py:21-92 | the object built for a payroll value earns `CalculateSalary` of it under dispatch |
| `PayrollBridge.CalculateSalaryHasNoSideEffects` | 1.py:51-58 | no `calculate_salary` override assigns an attribute: any successful call returns the object unchanged, whatever its dictionary holds |
| `PayrollBridge.ScriptExamplesThroughDispatch` | 1.py:95-99 | the two objects the script builds construct without error, and dispatch gives 65000 and 45000 |
| `Store.Product.constructor` | 3.py:13-28 | each of the five fields equals its argument, with no rounding or clamping; the object matches the dictionary Python's `__init__` builds from the same arguments |
| `Store.ProductInitStoresArgs` | 3.py:24-28 | `Product.__init__` stores its five arguments verbatim under `product_id`, `name`, `price`, `stock`, `category`, for any values including negative or zero stock |
| `Store.ProductInitChecksOnlyArity` | 3.py:13-28 | the constructor raises nothing when given five arguments of any kind; with any other number it raises `TypeError` |

## Left out

- The storefront's shopping cart, customer and order processing (discount, tax, stock decrement, insufficient-stock error) are not part of this model: their code is not among the modelled files.
- The module-level example script's `print` calls (1.py:98-99) are console output; only the two amounts they print are kept, as `Payroll.ScriptExamples` and `PayrollBridge.ScriptExamplesThroughDispatch`.
- IEEE floating point: amounts are exact reals, and Python's `int` and `float` are one numeric kind, so `65000` and `65000.0` are not told apart.
- The interpreter covers only the Python the two files use: single inheritance, positional arguments, attribute assignment, `return`, `+` and `*`. It does not model `str * int` repetition (a `TypeError` here), keyword arguments, descriptors or properties, multiple inheritance, or the attribute dictionary a failed call leaves behind.
- Payroll.CalculateSalary: carries no ensures of its own. What it computes is stated by `PayrollBridge.DispatchComputesSalary` against the Python definitions, and its consequences by the lemmas of `Payroll`.
- SourceClasses.Methods: carries no ensures. It is the transcription, statement by statement, of the class bodies at 1.py:10-92 and 3.py:13-28, and every lemma of `PayrollBridge` and `Store` rests on it being read correctly against those lines.
- Payroll.Employee: the datatype types `name` as a string and the amounts as reals, whereas Python accepts any value (for example `Employee(None, 5)`, whose `calculate_salary` returns 5). `PayrollBridge.DispatchComputesSalary` covers only objects whose fields have those kinds; `PayrollBridge.EmployeeInitStoresArgs`, `ManagerInitExtendsBase` and `DeveloperInitExtendsBase` cover construction with arbitrary values.
- Store.Product.constructor: its parameters are typed (`int`, `string`, `real`) as the docstring describes them, whereas Python accepts any value. `Store.ProductInitStoresArgs` covers arbitrary values.
- Docstrings and comments carry no behaviour and are not modelled.
