/** The records the components receive from the backend, with the fields the
    component code reads. A field the code guards with `?.` or `??` is optional here. */
module Models {
  import opened Common

  /** The `department` reference embedded in an employee or a monthly limit;
      only its `_id` is read. */
  datatype DepartmentRef = DepartmentRef(id: string)

  /** A department as the department list and the monthly-limit list receive it: the
      declared fields plus the period budget figures the server adds, which the code
      reads through `?? 0` or `?.`. */
  datatype Department = Department(
    id: string,
    name: string,
    numberOfEmployees: real,
    createdAt: string,
    updatedAt: string,
    limitAmount: Option<real>,
    spentAmount: Option<real>,
    carryover: Option<real>,
    effectiveLimit: Option<real>,
    available: Option<real>)

  datatype Employee = Employee(id: string, name: string, position: string, department: Option<DepartmentRef>)

  /** An expense type; the expense-type list reads `limit` through `?? -Infinity`. */
  datatype ExpenseType = ExpenseType(id: string, name: string, description: Option<string>, limit: Option<real>)

  datatype MonthlyLimit = MonthlyLimit(
    id: string,
    department: Option<DepartmentRef>,
    year: int,
    month: int,
    limitAmount: real,
    spentAmount: real)

  /** The two entries of every sort-direction dropdown. */
  datatype Direction = Asc | Desc

  datatype DirectionOption = DirectionOption(value: Direction, viewValue: string)
}
