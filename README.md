# Expense tracker admin frontend — verified model

This project models the behaviour of an Angular admin panel for company expenses
(departments, employees, expense types, monthly department budgets and the expenses charged
against them), and proves properties of that model in Dafny. The backend is outside the model:
every server answer is a parameter of the step that receives it (`Response<T>`: the emitted
value, or an HTTP error with an optional `message`).

The centre of the model is the budget-aware expense form (module `ExpenseCreate`):

- the largest amount allowed, which is the smaller of the department's available funds and the
  expense type's per-transaction limit;
- the amount validator and its message;
- the four reactive effects, each an explicit step: filter employees by department,
  auto-select the department of the chosen employee, load department funds, look up the
  expense type;
- submission and reset.

Angular caches a control's validation result, so the class stores the amount control's
`maxAmountExceeded` verdict in a field (`amountMaxError`). It is recomputed exactly where the
code re-validates the control: when the amount changes, when funds arrive, in the expense-type
effect, and on reset.

The message under the amount field is a `computed` signal, and the amount control's value is
not a signal. So the message is recomputed only when one of the signals its last computation
read has changed: the maximum, and, when the amount was over it, the funds and the expense
type. A computation that saw no positive amount read no signal at all, and its empty message
stays for the life of the page. The class keeps this cache (`messageCache`) and counts each time
the funds and expense-type signals are set to a new value. The template is outside the model:
a read of the message is the step `ReadValidationMessage`.

The model also covers:

- the three sortable lists: departments, monthly limits joined with department budgets, and
  expense types. Each sorts a copy with `Array.prototype.sort`, modelled as an in-place insertion
  sort over an array (`Sorting`);
- filter cleaning and pagination in the expense and employee lists;
- the inline-edit state machines of the department and employee lists;
- the monthly-limit and expense-type forms and the registration form;
- the session: the two route guards, the HTTP interceptor and the auth service over a
  key/value `localStorage`.

JavaScript details the code relies on are written out:

- truthiness of strings, where `''` counts as absent;
- `a || b` and `${undefined}`;
- `String.prototype.trim` with the ECMAScript whitespace set;
- `x ?? 0`;
- NaN from `-Infinity - -Infinity`, which the sort reads as 0;
- `new Date(y, m)` mapping years 0–99 to 1900–1999 and rolling over months outside 1–12.

`localeCompare` and date parsing are abstract rank functions (`Collation`). `Validators.email` is
an abstract predicate.

Seven verified scenarios follow concrete runs step by step. A funds response only ever
answers the request that the funds effect sent for a selected department, so the scenarios
receive funds through `ChooseDepartmentWithFunds` (select, run the effect, receive its
answer), and drop them through `ClearDepartment` (select none, run the effect):

- `ExpenseCreate.StaleFundsResponseScenario`: a funds response for a department that is no
  longer selected still replaces the snapshot, because the last response wins.
- `ExpenseCreate.ZeroAvailabilityScenario`: with 0 available no amount is rejected.
- `ExpenseCreate.FrozenMessageScenario`: the message first read at amount 0 stays empty after
  an over-budget amount is typed and funds arrive, while the validator rejects that amount.
- `ExpenseCreate.DroppedFundsRevalidateScenario`: when the expense-type effect last ran with a
  positive amount, dropping the funds re-runs it and clears a stored amount error.
- `ExpenseCreate.StaleAmountErrorScenario`: when it last ran before an amount was typed,
  dropping the funds leaves the stored error in place although the validator would accept.
- `ExpenseList.FirstLoadScenario`: the filter effect's first run loads nothing; once the
  debounced start value arrives it asks for page 1 of 10 entries.
- `ExpenseList.PagingIsUndoneScenario`: moving to page 3 re-runs the filter effect, which
  resets the index to 0 and requests page 1 again.

### Behaviour of the expense form worth knowing

- **A maximum of 0 never rejects.** An available balance of 0 gives a maximum of 0, and the
  validator and the message treat 0 as "unknown". No amount is rejected and there is no
  "no funds" message (`ExpenseCreate.AmountValidator`, `ExpenseCreate.ZeroAvailabilityScenario`).
- **The last funds response wins.** Nothing ties a funds response to the department selected
  when it arrives. A response for an earlier selection that arrives last replaces the snapshot
  (`ExpenseCreate.ExpenseCreateComponent.ReceiveFunds`, `ExpenseCreate.StaleFundsResponseScenario`).
- **The stored amount error can go stale.** Clearing the department, or starting a funds load,
  drops the funds snapshot. The amount is re-validated then only if the expense-type effect's
  last run saw a positive amount: its validation read the maximum, so the maximum falling to 0
  runs it again (`ExpenseCreate.ExpenseCreateComponent.TypeEffectRerunsForMax`,
  `ExpenseCreate.DroppedFundsRevalidateScenario`). Otherwise a stored `maxAmountExceeded` error
  stays until the amount, the funds or the expense type next changes
  (`ExpenseCreate.StaleAmountErrorScenario`).
- **Paging is undone in the expense list.** The filter effect calls `loadExpenses`, which reads
  `pageIndex` and `pageSize`, so both signals re-run the effect. A page change therefore
  triggers the effect, which sets the index back to 0 and requests page 1 after the requested
  page (`ExpenseList.PagingIsUndoneScenario`).
- **The message can disagree with the validator.** See `ExpenseCreate.FrozenMessageScenario`.

The expense-type list's comment says types without a limit go "at the end". The code reads a
missing limit as `-Infinity`, which puts them first in ascending order and last in descending.
The model follows the code.

## Model

Paths are relative to the repository root.

| member | source | states |
|---|---|---|
| Common.OrElse | src/app/features/expenses/expense-create/expense-create.component.ts:225 | `message \|\| fallback`: the message when it is a non-empty string, otherwise the fallback; never empty when the fallback is not |
| Common.Interpolated | src/app/features/departments/department-list/department-list.component.ts:159 | an undefined server message prints as "undefined" inside the error text |
| Common.FindIndex | src/app/features/expenses/expense-create/expense-create.component.ts:185 | the first index whose element satisfies the predicate; `None` exactly when no element does |
| Common.Find | src/app/features/expenses/expense-create/expense-create.component.ts:156 | `find`: `None` exactly when no element matches, otherwise the first matching element of the list |
| Common.Filter | src/app/features/expenses/expense-create/expense-create.component.ts:144 | `filter`: keeps exactly the elements satisfying the predicate, no more elements than the input, a sub-multiset, and the input itself when every element passes |
| Common.FilterConcat | src/app/features/expenses/expense-create/expense-create.component.ts:144 | filtering distributes over concatenation, so kept elements keep their relative order |
| Common.TrimIsEmptyIff | src/app/features/departments/department-list/department-list.component.ts:148 | `s.trim()` is empty exactly when `s` is all ECMAScript whitespace |
| Common.TrimStartEmpty | src/app/features/departments/department-list/department-list.component.ts:148 | stripping leading whitespace leaves nothing exactly when the string is all whitespace |
| Common.TrimEndEmpty | src/app/features/departments/department-list/department-list.component.ts:148 | stripping trailing whitespace leaves nothing exactly when the string is all whitespace |
| Sorting.SortInPlace | src/app/features/departments/department-list/department-list.component.ts:101-117 | sorting an array in place with a consistent comparator leaves it ordered by the comparator and a permutation of what it held |
| Sorting.Insert | src/app/features/departments/department-list/department-list.component.ts:101-117 | one insertion pass extends the sorted prefix by one element and keeps the contents |
| Sorting.SortedCopy | src/app/features/departments/department-list/department-list.component.ts:92-101 | `[...s].sort(cmp)`: an ordered permutation of `s`, same length, `s` untouched |
| Sorting.RankedComparator | src/app/features/departments/department-list/department-list.component.ts:101-117 | a comparator whose sign follows a rank is a total preorder |
| Sorting.SortedByRank | src/app/features/departments/department-list/department-list.component.ts:101-117 | a list sorted by such a comparator is non-decreasing by the rank |
| ExpenseCreate.MaxAllowedAmount | src/app/features/expenses/expense-create/expense-create.component.ts:94-103 | 0 while either snapshot is missing; otherwise at most the available funds and at most the type limit, and equal to one of them (their minimum) |
| ExpenseCreate.AmountValidator | src/app/features/expenses/expense-create/expense-create.component.ts:197-209 | rejects exactly when both snapshots exist, both bounds are positive and the amount exceeds one of them; a maximum of 0 or an amount within the maximum never rejects |
| ExpenseCreate.AmountValidationMessage | src/app/features/expenses/expense-create/expense-create.component.ts:107-126 | a message exactly when the validator rejects the same amount; names the department when the amount exceeds its availability, and otherwise the type limit that it exceeds |
| ExpenseCreate.MessageText | src/app/features/expenses/expense-create/expense-create.component.ts:117-125 | the shown text is empty exactly when there is no message |
| ExpenseCreate.ComputeMessage | src/app/features/expenses/expense-create/expense-create.component.ts:107-126 | one run of the computed: its message is the validation message; it reads the maximum exactly when the amount is positive, and the funds and type whenever it yields a message |
| ExpenseCreate.MessageFromZeroAmountIsFrozen | src/app/features/expenses/expense-create/expense-create.component.ts:108-109 | a message computed with no positive amount is empty and is never recomputed, whatever changes afterwards |
| ExpenseCreate.MessageWithinMaxFollowsOnlyTheMax | src/app/features/expenses/expense-create/expense-create.component.ts:111-112 | a message computed with the amount within the maximum is recomputed exactly when the maximum changes |
| ExpenseCreate.FilteredEmployees | src/app/features/expenses/expense-create/expense-create.component.ts:143-145 | every employee with no department selected; otherwise exactly the employees of that department, as an order-preserving filter |
| ExpenseCreate.FindEmployee | src/app/features/expenses/expense-create/expense-create.component.ts:156 | the first employee with the id, missing exactly when no employee has it |
| ExpenseCreate.FindExpenseType | src/app/features/expenses/expense-create/expense-create.component.ts:185 | the first expense type with the id, `None` exactly when none has it |
| ExpenseCreate.ValidFormRespectsBudget | src/app/features/expenses/expense-create/expense-create.component.ts:197-209 | an amount the validator passes is within both bounds whenever the maximum is known and positive |
| ExpenseCreate.ExpenseCreateComponent.constructor | src/app/features/expenses/expense-create/expense-create.component.ts:75-86 | empty lists, no snapshots, not loading, form at amount 0, today's date and empty ids; the message not yet computed |
| ExpenseCreate.ExpenseCreateComponent.NgOnInit | src/app/features/expenses/expense-create/expense-create.component.ts:132-136 | attaches the amount validator without re-validating |
| ExpenseCreate.ExpenseCreateComponent.ReceiveReferenceData | src/app/features/expenses/expense-create/expense-create.component.ts:70-72 | the employee and expense-type lists take the services' values |
| ExpenseCreate.ExpenseCreateComponent.EnterAmount | src/app/features/expenses/expense-create/expense-create.component.ts:81 | a new amount re-runs the attached validator; only the amount changes |
| ExpenseCreate.ExpenseCreateComponent.FilterEmployeesEffect | src/app/features/expenses/expense-create/expense-create.component.ts:140-150 | publishes the filtered list; a selected employee who is not in it is reset to `''`, any other selection is kept, and nothing else in the form changes |
| ExpenseCreate.ExpenseCreateComponent.AutoSelectDepartmentEffect | src/app/features/expenses/expense-create/expense-create.component.ts:153-161 | a found employee with a department makes the department control hold that id; `setValue` is issued exactly when the value differs; only the department can change |
| ExpenseCreate.ExpenseCreateComponent.FundsEffect | src/app/features/expenses/expense-create/expense-create.component.ts:164-180 | a department selection drops the snapshot, sets loading and issues exactly one request for it; an empty selection drops the snapshot without a request; the funds signal counts as changed exactly when it held funds |
| ExpenseCreate.ExpenseCreateComponent.ReceiveFunds | src/app/features/expenses/expense-create/expense-create.component.ts:169-176 | success stores the funds as a new signal value, clears loading and re-validates the amount; failure only clears loading |
| ExpenseCreate.ExpenseCreateComponent.ExpenseTypeEffect | src/app/features/expenses/expense-create/expense-create.component.ts:183-187 | the snapshot is the first matching expense type or none, the signal counts as changed exactly when that differs from before, the amount is re-validated, and the run records whether that validation read the maximum (attached validator, positive amount) and its value |
| ExpenseCreate.ExpenseCreateComponent.ReadValidationMessage | src/app/features/expenses/expense-create/expense-create.component.ts:107-126 | when a signal the last run read has changed (or on the first read) the message is recomputed and agrees with the validator; otherwise the cached message is returned unchanged |
| ExpenseCreate.ExpenseCreateComponent.SelectDepartment | src/app/features/expenses/expense-create/expense-create.component.ts:83 | the user's choice of department; nothing else in the form changes |
| ExpenseCreate.ExpenseCreateComponent.SelectEmployee | src/app/features/expenses/expense-create/expense-create.component.ts:84 | the user's choice of employee; nothing else in the form changes |
| ExpenseCreate.ExpenseCreateComponent.SelectExpenseType | src/app/features/expenses/expense-create/expense-create.component.ts:85 | the user's choice of expense type; nothing else in the form changes |
| ExpenseCreate.ChooseDepartmentWithFunds | src/app/features/expenses/expense-create/expense-create.component.ts:164-176 | a chosen department leads to exactly one funds request for it; when that request succeeds the snapshot is its funds, loading is off and the stored verdict is the validator's on the new funds; no other field changes |
| ExpenseCreate.ClearDepartment | src/app/features/expenses/expense-create/expense-create.component.ts:164-180 | clearing the department drops the funds snapshot without a request, and the stored verdict is not re-checked |
| ExpenseCreate.ChooseExpenseType | src/app/features/expenses/expense-create/expense-create.component.ts:183-187 | once the types arrive and one is picked, the effect's snapshot is that type, the stored verdict is re-checked, and the run reads the maximum exactly when the amount is positive |
| ExpenseCreate.ExpenseCreateComponent.OnSubmit | src/app/features/expenses/expense-create/expense-create.component.ts:211-230 | a request exactly when the form is valid, carrying the form as it stands; success resets the form and its error, failure keeps the draft and reports the server message or "Невідома помилка" |
| DepartmentList.FieldValue | src/app/features/departments/department-list/department-list.component.ts:103-104 | `department[key] ?? 0` is a string for the text fields and a number for every other key |
| DepartmentList.ComparisonIsRankDifference | src/app/features/departments/department-list/department-list.component.ts:106-114 | the comparison is always the difference of the two ranks: creation time, collation rank or number (missing as 0) |
| DepartmentList.DirectionOptions | src/app/features/departments/department-list/department-list.component.ts:77-88 | two different directions; newest first for the creation date, ascending first otherwise |
| DepartmentList.DepartmentListComponent.constructor | src/app/features/departments/department-list/department-list.component.ts:54-63 | nothing being edited; sort by creation date, descending |
| DepartmentList.DepartmentListComponent.ReceiveDepartments | src/app/features/departments/department-list/department-list.component.ts:52 | the list takes the service's value |
| DepartmentList.DepartmentListComponent.SortedDepartments | src/app/features/departments/department-list/department-list.component.ts:91-120 | a permutation of the departments, non-decreasing by the key's rank for `asc` and non-increasing for `desc` |
| DepartmentList.DepartmentListComponent.OnEdit | src/app/features/departments/department-list/department-list.component.ts:137-140 | the edit state holds the department's id and name |
| DepartmentList.DepartmentListComponent.OnCancelEdit | src/app/features/departments/department-list/department-list.component.ts:142-145 | the edit state is cleared |
| DepartmentList.DepartmentListComponent.OnSave | src/app/features/departments/department-list/department-list.component.ts:147-162 | an all-whitespace name is refused with no request and the edit kept; otherwise the untrimmed name is sent, success clears the edit, failure keeps it |
| DepartmentList.DepartmentListComponent.OnBlurSave | src/app/features/departments/department-list/department-list.component.ts:129-135 | saves exactly when the same department is still being edited, with every outcome of `onSave` (blank name refused, request, success closing the edit, failure keeping it, the notice); otherwise no notice and nothing changes |
| MonthlyLimitList.PeriodIndexIsLexicographic | src/app/features/monthly-limits/monthly-limit-list/monthly-limit-list.component.ts:105 | for years from 100 and months 1–12 the period key orders by year, then month |
| MonthlyLimitList.PeriodOrderIsChronological | src/app/features/monthly-limits/monthly-limit-list/monthly-limit-list.component.ts:119-121 | rows ascending by period key are in (year, month) order |
| MonthlyLimitList.DepartmentOf | src/app/features/monthly-limits/monthly-limit-list/monthly-limit-list.component.ts:98 | the matched department has the limit's department id; a limit without a department, or with an id no department has, matches none; when several match, the first |
| MonthlyLimitList.JoinLimits | src/app/features/monthly-limits/monthly-limit-list/monthly-limit-list.component.ts:91-108 | empty without departments; otherwise one row per limit in order, keeping the limit, with the matched department's figures or none, and the period key |
| MonthlyLimitList.FieldValue | src/app/features/monthly-limits/monthly-limit-list/monthly-limit-list.component.ts:120-121 | the sort value is a number except for the id and a present department |
| MonthlyLimitList.ComparisonIsRankDifference | src/app/features/monthly-limits/monthly-limit-list/monthly-limit-list.component.ts:123-129 | the comparison is the difference of the ranks; non-numeric keys compare equal |
| MonthlyLimitList.DirectionOptions | src/app/features/monthly-limits/monthly-limit-list/monthly-limit-list.component.ts:78-89 | two different directions; newest first for the period, ascending first otherwise |
| MonthlyLimitList.MonthlyLimitListComponent.constructor | src/app/features/monthly-limits/monthly-limit-list/monthly-limit-list.component.ts:63-67 | form closed, nothing selected, sort by period descending |
| MonthlyLimitList.MonthlyLimitListComponent.ReceiveData | src/app/features/monthly-limits/monthly-limit-list/monthly-limit-list.component.ts:57-58 | limits and departments take the services' values |
| MonthlyLimitList.MonthlyLimitListComponent.SortedLimits | src/app/features/monthly-limits/monthly-limit-list/monthly-limit-list.component.ts:110-133 | a permutation of the joined rows, non-decreasing by rank for `asc`, non-increasing for `desc` |
| MonthlyLimitList.MonthlyLimitListComponent.TableEffect | src/app/features/monthly-limits/monthly-limit-list/monthly-limit-list.component.ts:136-138 | the table holds the sorted rows |
| MonthlyLimitList.MonthlyLimitListComponent.OnAddNew | src/app/features/monthly-limits/monthly-limit-list/monthly-limit-list.component.ts:161-164 | form open, nothing selected |
| MonthlyLimitList.MonthlyLimitListComponent.OnEdit | src/app/features/monthly-limits/monthly-limit-list/monthly-limit-list.component.ts:166-169 | form open with the given limit |
| MonthlyLimitList.MonthlyLimitListComponent.OnFormClose | src/app/features/monthly-limits/monthly-limit-list/monthly-limit-list.component.ts:171-174 | form closed, nothing selected |
| ExpenseTypeList.DescendingNegatesAscending | src/app/features/expense-types/expense-type-list/expense-type-list.component.ts:75 | the descending comparison is the exact negation of the ascending one |
| ExpenseTypeList.AscendingSign | src/app/features/expense-types/expense-type-list/expense-type-list.component.ts:72-74 | ascending, `a` may precede `b` exactly when `a` has no limit or both have limits and `a`'s is not larger |
| ExpenseTypeList.DescendingSign | src/app/features/expense-types/expense-type-list/expense-type-list.component.ts:75 | descending reverses that order |
| ExpenseTypeList.ComparatorIsTotalPreorder | src/app/features/expense-types/expense-type-list/expense-type-list.component.ts:69-76 | both directions of the comparator order consistently, NaN and infinities included |
| ExpenseTypeList.ExpenseTypeListComponent.constructor | src/app/features/expense-types/expense-type-list/expense-type-list.component.ts:52-58 | form closed, nothing selected, ascending |
| ExpenseTypeList.ExpenseTypeListComponent.ReceiveExpenseTypes | src/app/features/expense-types/expense-type-list/expense-type-list.component.ts:50 | the list takes the service's value |
| ExpenseTypeList.ExpenseTypeListComponent.SortedExpenseTypes | src/app/features/expense-types/expense-type-list/expense-type-list.component.ts:65-79 | a permutation ordered by limit; types without a limit come first ascending and last descending |
| ExpenseTypeList.ExpenseTypeListComponent.TableEffect | src/app/features/expense-types/expense-type-list/expense-type-list.component.ts:81-85 | the table holds the sorted list |
| ExpenseTypeList.ExpenseTypeListComponent.OnAddNew | src/app/features/expense-types/expense-type-list/expense-type-list.component.ts:97-100 | form open, nothing selected |
| ExpenseTypeList.ExpenseTypeListComponent.OnEdit | src/app/features/expense-types/expense-type-list/expense-type-list.component.ts:102-105 | form open with the given type |
| ExpenseTypeList.ExpenseTypeListComponent.OnFormClose | src/app/features/expense-types/expense-type-list/expense-type-list.component.ts:107-110 | form closed, nothing selected |
| QueryFilters.CleanFilters | src/app/features/expenses/expense-list/expense-list.component.ts:94-97 | keeps exactly the entries whose value is present and non-empty, values unchanged |
| QueryFilters.CleanFiltersConcat | src/app/features/expenses/expense-list/expense-list.component.ts:96 | cleaning splits over concatenation, so kept entries stay in order |
| QueryFilters.BlankFiltersCleanToNothing | src/app/features/expenses/expense-list/expense-list.component.ts:96 | empty or missing filters produce no parameters |
| ExpenseList.SentFiltersAreTheFilledControls | src/app/features/expenses/expense-list/expense-list.component.ts:94-97 | a (name, value) pair is sent exactly when that control holds that non-empty value |
| ExpenseList.ExpenseListComponent.constructor | src/app/features/expenses/expense-list/expense-list.component.ts:63-87 | empty filters, page index 0, page size 10, no request yet; the filter signal still undefined and the filter effect scheduled for its first run |
| ExpenseList.ExpenseListComponent.LoadExpenses | src/app/features/expenses/expense-list/expense-list.component.ts:93-106 | one request with the cleaned filters, page `pageIndex + 1` and limit `pageSize` |
| ExpenseList.ExpenseListComponent.SetFilters | src/app/features/expenses/expense-list/expense-list.component.ts:68-73 | the filter controls take the user's values |
| ExpenseList.ExpenseListComponent.FiltersSettle | src/app/features/expenses/expense-list/expense-list.component.ts:75-77 | the debounced filter stream emits: the filter signal holds a value and the filter effect is scheduled |
| ExpenseList.ExpenseListComponent.FiltersEffect | src/app/features/expenses/expense-list/expense-list.component.ts:80-86 | runs only when scheduled; with a filter value it returns to the first page and requests page 1, and records that it read `pageIndex` and `pageSize`; without one it loads nothing and reads neither |
| ExpenseList.ExpenseListComponent.HandlePageEvent | src/app/features/expenses/expense-list/expense-list.component.ts:119-123 | page index and size come from the event, then one request for that page; the filter effect becomes scheduled exactly when it was already, or its last run read the page and the index or size changed |
| ExpenseList.ExpenseListComponent.ClearFilters | src/app/features/expenses/expense-list/expense-list.component.ts:115-117 | all four filters become `''`, so the next request carries no filter |
| EmployeeList.EmployeeListComponent.constructor | src/app/features/employees/employee-list/employee-list.component.ts:56-67 | nothing being edited, empty edit form and filters |
| EmployeeList.EmployeeListComponent.SetFilters | src/app/features/employees/employee-list/employee-list.component.ts:64-67 | the filter controls take the user's values |
| EmployeeList.EmployeeListComponent.FiltersEffect | src/app/features/employees/employee-list/employee-list.component.ts:89-94 | one load whose parameters are exactly the non-empty filters, values unchanged |
| EmployeeList.EmployeeListComponent.ClearFilters | src/app/features/employees/employee-list/employee-list.component.ts:101-103 | both filters become `''`, so the next load carries no filter |
| EmployeeList.EmployeeListComponent.OnEdit | src/app/features/employees/employee-list/employee-list.component.ts:107-114 | the edit state holds the employee's id, name, position and department id; an employee without a department throws after the id is stored, leaving the edit form as it was |
| EmployeeList.EmployeeListComponent.OnCancelEdit | src/app/features/employees/employee-list/employee-list.component.ts:116-119 | the edit state is cleared |
| EmployeeList.EmployeeListComponent.OnSave | src/app/features/employees/employee-list/employee-list.component.ts:121-142 | an all-whitespace name or position is refused with no request; otherwise the untrimmed form is sent, success clears the edit, failure keeps it |
| MonthlyLimitForm.DefaultNeedsOnlyADepartment | src/app/features/monthly-limits/monthly-limit-form/monthly-limit-form.component.ts:42-47 | the default create form is invalid and becomes valid exactly when a department is chosen |
| MonthlyLimitForm.LockedFormChecksOnlyAmount | src/app/features/monthly-limits/monthly-limit-form/monthly-limit-form.component.ts:62-64 | with the period controls disabled only the amount decides validity |
| MonthlyLimitForm.MonthlyLimitFormComponent.constructor | src/app/features/monthly-limits/monthly-limit-form/monthly-limit-form.component.ts:36-47 | create mode, nothing locked, defaults of current year and month and amount 0 |
| MonthlyLimitForm.MonthlyLimitFormComponent.NgOnInit | src/app/features/monthly-limits/monthly-limit-form/monthly-limit-form.component.ts:53-65 | with a limit: edit mode, form patched from it, period locked; a limit without a department throws after edit mode is set, leaving form and lock as they were; without a limit nothing changes |
| MonthlyLimitForm.MonthlyLimitFormComponent.OnSubmit | src/app/features/monthly-limits/monthly-limit-form/monthly-limit-form.component.ts:68-96 | a request exactly when the form is valid; edit sends only the amount with the limit's id, create the whole form; closes exactly on success |
| MonthlyLimitForm.MonthlyLimitFormComponent.Cancel | src/app/features/monthly-limits/monthly-limit-form/monthly-limit-form.component.ts:98-100 | the form closes |
| ExpenseTypeForm.PatchedTypeIsValid | src/app/features/expense-types/expense-type-form/expense-type-form.component.ts:36-51 | a patched type with a limit is valid exactly when it has a name and a non-negative limit, and the form holds its values |
| ExpenseTypeForm.MissingLimitKeepsDefault | src/app/features/expense-types/expense-type-form/expense-type-form.component.ts:36-51 | a type without a limit keeps the default limit 0 and is valid exactly when named |
| ExpenseTypeForm.ExpenseTypeFormComponent.constructor | src/app/features/expense-types/expense-type-form/expense-type-form.component.ts:36-42 | create mode with the default form |
| ExpenseTypeForm.ExpenseTypeFormComponent.NgOnInit | src/app/features/expense-types/expense-type-form/expense-type-form.component.ts:44-51 | with a type: edit mode and the form patched from it; without one nothing changes |
| ExpenseTypeForm.ExpenseTypeFormComponent.OnSubmit | src/app/features/expense-types/expense-type-form/expense-type-form.component.ts:53-79 | a request exactly when valid, with the form as payload; update by id in edit mode, create otherwise; closes exactly on success |
| ExpenseTypeForm.ExpenseTypeFormComponent.Cancel | src/app/features/expense-types/expense-type-form/expense-type-form.component.ts:81-83 | the form closes |
| Register.MissingControlPasses | src/app/features/auth/register/register.component.ts:16-23 | a group lacking either password control never reports a mismatch |
| Register.PasswordsMismatchIsSymmetric | src/app/features/auth/register/register.component.ts:20 | swapping password and confirmation gives the same verdict |
| Register.ValidFormPasswordsAgree | src/app/features/auth/register/register.component.ts:47-51 | a valid form has matching passwords of at least 6 characters |
| Register.RegisterComponent.constructor | src/app/features/auth/register/register.component.ts:47-51 | all three controls empty |
| Register.RegisterComponent.EnterValues | src/app/features/auth/register/register.component.ts:47-51 | the controls take the user's values |
| Register.RegisterComponent.OnSubmit | src/app/features/auth/register/register.component.ts:53-70 | a request exactly when valid, carrying only email and password; success goes to the login page, failure shows the server message or the fixed one |
| Storage.LocalStorage.SetItem | src/app/core/services/auth.service.ts:46 | the key holds the value, other keys untouched |
| Storage.LocalStorage.RemoveItem | src/app/core/services/auth.service.ts:55 | the key is gone, other keys untouched |
| AuthGuard.CanActivate | src/app/core/guards/auth.guard.ts:9-16 | allows exactly when the stored token is a non-empty string, otherwise redirects to `/login` |
| AuthGuard.ReadsOnlyTheToken | src/app/core/guards/auth.guard.ts:9 | stores that agree on the token get the same answer |
| PublicGuard.CanActivate | src/app/core/guards/public.guard.ts:6-14 | allows exactly when the token is missing or empty, otherwise redirects to `/dashboard` |
| PublicGuard.ExactlyOneGuardAllows | src/app/core/guards/public.guard.ts:8-14 | in every store state exactly one of the two guards allows |
| PublicGuard.ReadsOnlyTheToken | src/app/core/guards/public.guard.ts:6 | stores that agree on the token get the same answer |
| AuthInterceptor.Intercept | src/app/core/interceptors/auth.interceptor.ts:4-19 | with a non-empty token the forwarded request carries `Authorization: Bearer <token>` and equals the original otherwise; without one it is the original |
| AuthInterceptor.InterceptIsIdempotent | src/app/core/interceptors/auth.interceptor.ts:9-12 | intercepting a second time changes nothing |
| AuthService.AuthServiceState.constructor | src/app/core/services/auth.service.ts:35 | nobody is signed in |
| AuthService.AuthServiceState.Login | src/app/core/services/auth.service.ts:41-52 | a response stores its token and signs its user in, so the auth guard then allows iff the token is non-empty; a failure changes nothing |
| AuthService.AuthServiceState.Logout | src/app/core/services/auth.service.ts:54-58 | the token is removed, nobody is signed in, and the auth guard redirects to `/login` |
| AuthService.LogoutIsIdempotent | src/app/core/services/auth.service.ts:54-58 | a second logout leaves exactly the store and user the first one left: no token, nobody signed in |
| AuthService.AuthServiceState.Register | src/app/core/services/auth.service.ts:37-39 | posts the credentials and changes neither store nor user |

## Left out

- HTTP services and their caches: every server answer is a parameter. Reference-data loading
  (`loadFormData`, `getDepartments`, the position lists) only appears as the steps that receive
  the lists.
- Angular scheduling: effect ordering, `debounceTime(400)` timing and the 150 ms `setTimeout`
  are not modelled. Each effect is a step the caller invokes. Only the expense list's filter
  effect tracks when it is scheduled; for the expense form's effects,
  `TypeEffectRerunsForMax` says when the maximum re-runs the expense-type effect. `OnBlurSave` is the
  timer callback.
- Interleavings of in-flight requests are only modelled for the funds request, where the last
  response wins. Other responses arrive in the step that issued the request.
- `onDelete` in the four list components is not modelled: a confirmation dialog, then one
  DELETE request and a snackbar.
- Snackbar display (duration, styling) and `router.navigate` are not modelled. Notices and
  navigation targets are returned values.
- The dashboard's `calculateProgress`, the receipt dialog, the route table, and the login,
  department-create and employee-create components are not modelled.
- ExpenseCreate.MaxAllowedAmount: an expense type without a `limit` gives NaN in the code and 0
  here. Validator and message behave the same for NaN and 0, since neither passes `> 0`.
- DepartmentList.ComparisonIsRankDifference: `localeCompare` and `new Date(s).getTime()` are
  abstract integer ranks. Unparseable dates (NaN) and locale rules are not modelled.
- MonthlyLimitList.PeriodIndexIsLexicographic: `getTime()` milliseconds are replaced by a month
  count that orders periods the same way. Time zones and daylight saving are not modelled.
- ExpenseTypeList.ComparatorIsTotalPreorder: only the comparator results the sort can see are
  modelled (numbers, ±Infinity, NaN). Floating-point rounding is not modelled; amounts are
  exact reals.
- Register.ValidFormPasswordsAgree: `minLength(6)` counts UTF-16 code units in the code, and
  characters here. `Validators.email`'s pattern is the abstract `isEmail`.
- AuthInterceptor.Intercept: header names are compared exactly. Angular's `HttpHeaders` is
  case-insensitive.
- ExpenseTypeForm.PatchedTypeIsValid: a type with a `null` limit property is treated like one
  without the property.
- The unreachable direction reset in `sortedDepartments` and `sortedLimits` is not modelled: the
  direction type only admits `asc` and `desc`.
- The display-only `sortOptions` labels and column lists are not modelled.
- An HTTP error whose body is empty is not modelled. Every error handler reads
  `err.error.message`; with a `null` body that read throws a `TypeError` and no notice is shown.
  The model treats such an error like a body without `message` (`Failed(None)`), so it shows
  "Невідома помилка", "Помилка: undefined" or the component's fixed fallback text.
- ExpenseCreate.ExpenseCreateComponent.ReadValidationMessage: the maximum counts as changed when
  its value differs. Angular compares versions, so a maximum that changes and changes back
  between two reads of the message counts as changed there and unchanged here. The selected
  expense type is compared by value, not by object identity. When the template reads the
  message is not modelled: it is read whenever the caller invokes the step.
- Sorting.SortedCopy: stability is not stated. `Array.prototype.sort` is stable, so elements
  of equal rank keep their service order; the contracts only say the result is an ordered
  permutation.
- Signal writes inside effects are modelled as Angular 19 and later allow them. Earlier
  versions throw NG0600 at the writes in `ExpenseList.ExpenseListComponent.FiltersEffect` and in
  the expense form's funds and expense-type effects, none of which set `allowSignalWrites`.
