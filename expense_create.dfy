/** The budget-aware expense form (`ExpenseCreateComponent`): the derived maximum
    amount, the amount validator and its message, the four reactive effects as
    explicit steps, and submission. */
module ExpenseCreate {
  import opened Common
  import opened Models

  /** What the funds endpoint returns for a department in the current period. */
  datatype DepartmentFunds = DepartmentFunds(
    limitAmount: real,
    spentAmount: real,
    carryover: real,
    effectiveLimit: real,
    available: real)

  /** The raw value of the form, which is also the create payload. A cleared number
      input leaves the amount `None`. */
  datatype ExpenseDraft = ExpenseDraft(
    amount: Option<real>,
    date: string,
    department: string,
    employee: string,
    expenseType: string)

  /** The form's initial value and the value it is reset to after a successful
      submission; `now` is the ISO string of the current date. */
  function DefaultDraft(now: string): ExpenseDraft
  {
    ExpenseDraft(Some(0.0), now, "", "", "")
  }

  function Min(x: real, y: real): real
  {
    if x <= y then x else y
  }

  /** `maxAllowedAmount`: the smaller of the department's available funds and the
      expense type's per-transaction limit, and 0 while either snapshot is missing. */
  function MaxAllowedAmount(funds: Option<DepartmentFunds>, expenseType: Option<ExpenseType>): (r: real)
    ensures funds.None? || expenseType.None? ==> r == 0.0
    ensures funds.Some? && expenseType.Some? && expenseType.value.limit.Some? ==>
              r <= funds.value.available && r <= expenseType.value.limit.value &&
              (r == funds.value.available || r == expenseType.value.limit.value)
  {
    match (funds, expenseType)
    case (Some(f), Some(t)) => if t.limit.Some? then Min(f.available, t.limit.value) else 0.0
    case _ => 0.0
  }

  /** `amountValidator`: true when it reports `{ maxAmountExceeded: true }`. The
      amount is rejected exactly when both snapshots are present, both bounds are
      positive and the amount exceeds one of them; a maximum of 0 never rejects. */
  function AmountValidator(amount: Option<real>, funds: Option<DepartmentFunds>, expenseType: Option<ExpenseType>): (exceeded: bool)
    ensures exceeded <==>
              amount.Some? && funds.Some? && expenseType.Some? && expenseType.value.limit.Some? &&
              funds.value.available > 0.0 && expenseType.value.limit.value > 0.0 &&
              (amount.value > funds.value.available || amount.value > expenseType.value.limit.value)
    ensures MaxAllowedAmount(funds, expenseType) <= 0.0 ==> !exceeded
    ensures amount.Some? && amount.value <= MaxAllowedAmount(funds, expenseType) ==> !exceeded
  {
    match amount
    case None => false
    case Some(a) =>
      if a <= 0.0 then false
      else
        var max := MaxAllowedAmount(funds, expenseType);
        max > 0.0 && a > max
  }

  /** The three outcomes of `amountValidationMessage`. */
  datatype AmountMessage = NoMessage | DepartmentLimitExceeded(available: real) | TypeLimitExceeded(limit: real)

  /** `amountValidationMessage`: a message exactly when the validator rejects the same
      amount; it names the department's availability when the amount exceeds it, and
      otherwise the expense type's limit. */
  function AmountValidationMessage(amount: Option<real>, funds: Option<DepartmentFunds>, expenseType: Option<ExpenseType>): (m: AmountMessage)
    ensures m != NoMessage <==> AmountValidator(amount, funds, expenseType)
    ensures m.DepartmentLimitExceeded? ==>
              funds.Some? && m.available == funds.value.available &&
              amount.Some? && amount.value > funds.value.available
    ensures m.TypeLimitExceeded? ==>
              funds.Some? && expenseType.Some? && expenseType.value.limit == Some(m.limit) &&
              amount.Some? && amount.value <= funds.value.available && amount.value > m.limit
  {
    var a := if amount.Some? then amount.value else 0.0;
    if a <= 0.0 then NoMessage
    else
      var max := MaxAllowedAmount(funds, expenseType);
      if max > 0.0 && a > max then
        if funds.Some? && a > funds.value.available then DepartmentLimitExceeded(funds.value.available)
        else if expenseType.Some? && expenseType.value.limit.Some? && a > expenseType.value.limit.value then
          TypeLimitExceeded(expenseType.value.limit.value)
        else NoMessage
      else NoMessage
  }

  /** What the `amountValidationMessage` computed holds after a computation: the message,
      and the signals that computation read, with the value or version it saw. A
      computation with no positive amount returns before reading any signal; one that finds
      the amount within the maximum reads only `maxAllowedAmount`; one that finds it above
      also reads the funds and the expense type. The amount control is not a signal. */
  datatype MessageCache = MessageCache(
    message: AmountMessage,
    readMax: bool,
    seenMax: real,
    readSnapshots: bool,
    seenFunds: nat,
    seenType: nat)

  /** The cache a computation leaves for the given amount, snapshots and signal versions. */
  function ComputeMessage(amount: Option<real>, funds: Option<DepartmentFunds>, expenseType: Option<ExpenseType>,
                          fundsVersion: nat, typeVersion: nat): (c: MessageCache)
    ensures c.message == AmountValidationMessage(amount, funds, expenseType)
    ensures c.message != NoMessage ==> c.readMax && c.readSnapshots
    ensures c.readSnapshots ==> c.readMax
    ensures c.readMax <==> amount.Some? && amount.value > 0.0
  {
    var a := if amount.Some? then amount.value else 0.0;
    var max := MaxAllowedAmount(funds, expenseType);
    MessageCache(AmountValidationMessage(amount, funds, expenseType),
                 a > 0.0, max, a > 0.0 && max > 0.0 && a > max, fundsVersion, typeVersion)
  }

  /** Whether reading the computed recomputes it: it never ran, or a signal its last run
      read has changed since (the maximum by value, the two snapshots by version). */
  predicate MessageStale(cache: Option<MessageCache>, max: real, fundsVersion: nat, typeVersion: nat)
  {
    cache.None? ||
    (cache.value.readMax && cache.value.seenMax != max) ||
    (cache.value.readSnapshots && (cache.value.seenFunds != fundsVersion || cache.value.seenType != typeVersion))
  }

  /** A message computed while the amount was not positive depends on no signal, so it is
      never recomputed, whatever happens to the funds, the expense type or the amount. */
  lemma {:induction false} MessageFromZeroAmountIsFrozen(amount: Option<real>, funds: Option<DepartmentFunds>, expenseType: Option<ExpenseType>,
                                                        fundsVersion: nat, typeVersion: nat,
                                                        max': real, fundsVersion': nat, typeVersion': nat)
    requires amount.None? || amount.value <= 0.0
    ensures ComputeMessage(amount, funds, expenseType, fundsVersion, typeVersion).message == NoMessage
    ensures !MessageStale(Some(ComputeMessage(amount, funds, expenseType, fundsVersion, typeVersion)), max', fundsVersion', typeVersion')
  {
    var c := ComputeMessage(amount, funds, expenseType, fundsVersion, typeVersion);
    assert !c.readMax;
  }

  /** A message computed with the amount within a positive maximum is recomputed only
      when the maximum itself changes: new funds or a new type with the same maximum keep it. */
  lemma {:induction false} MessageWithinMaxFollowsOnlyTheMax(amount: Option<real>, funds: Option<DepartmentFunds>, expenseType: Option<ExpenseType>,
                                                            fundsVersion: nat, typeVersion: nat,
                                                            max': real, fundsVersion': nat, typeVersion': nat)
    requires amount.Some? && 0.0 < amount.value <= MaxAllowedAmount(funds, expenseType)
    ensures MessageStale(Some(ComputeMessage(amount, funds, expenseType, fundsVersion, typeVersion)), max', fundsVersion', typeVersion')
            <==> max' != MaxAllowedAmount(funds, expenseType)
  {
    var c := ComputeMessage(amount, funds, expenseType, fundsVersion, typeVersion);
    assert c.readMax && !c.readSnapshots;
  }

  /** The text the template shows; `format` renders a number as JavaScript does. */
  function MessageText(m: AmountMessage, format: real -> string): (text: string)
    ensures text == "" <==> m == NoMessage
  {
    match m
    case NoMessage => ""
    case DepartmentLimitExceeded(x) => "Перевищено доступний ліміт відділу (" + format(x) + " грн)"
    case TypeLimitExceeded(x) => "Перевищено ліміт транзакції для цього типу (" + format(x) + " грн)"
  }

  predicate InDepartment(e: Employee, departmentId: string)
  {
    e.department.Some? && e.department.value.id == departmentId
  }

  /** The list the filtering effect publishes: every employee when no department is
      selected, otherwise exactly the employees of that department, in list order. */
  function FilteredEmployees(employees: seq<Employee>, departmentId: string): (r: seq<Employee>)
    ensures departmentId == "" ==> r == employees
    ensures departmentId != "" ==> forall e :: e in r <==> e in employees && InDepartment(e, departmentId)
    ensures departmentId != "" ==> r == Filter(employees, (e: Employee) => InDepartment(e, departmentId))
  {
    if departmentId != "" then Filter(employees, (e: Employee) => InDepartment(e, departmentId)) else employees
  }

  /** `employees.some(emp => emp._id === id)`. */
  predicate HasEmployee(employees: seq<Employee>, id: string)
  {
    Any(employees, (e: Employee) => e.id == id)
  }

  /** `employees.find(emp => emp._id === id)`. */
  function FindEmployee(employees: seq<Employee>, id: string): (r: Option<Employee>)
    ensures r.Some? ==> r.value in employees && r.value.id == id
    ensures r.None? <==> !HasEmployee(employees, id)
    ensures r.Some? ==> exists k :: 0 <= k < |employees| && employees[k] == r.value &&
                                    forall j :: 0 <= j < k ==> employees[j].id != id
  {
    Find(employees, (e: Employee) => e.id == id)
  }

  /** `expenseTypes.find(t => t._id === id) || null`: the first expense type with that id. */
  function FindExpenseType(expenseTypes: seq<ExpenseType>, id: string): (r: Option<ExpenseType>)
    ensures r.Some? ==> r.value in expenseTypes && r.value.id == id
    ensures r.None? <==> forall i :: 0 <= i < |expenseTypes| ==> expenseTypes[i].id != id
    ensures r.Some? ==> exists k :: 0 <= k < |expenseTypes| && expenseTypes[k] == r.value &&
                                    forall j :: 0 <= j < k ==> expenseTypes[j].id != id
  {
    var found := FindIndex(expenseTypes, (t: ExpenseType) => t.id == id);
    match found
    case None => None
    case Some(k) => Some(expenseTypes[k])
  }

  /** The expense form. The reference lists are the service signals it reads; the
      response handlers are separate steps because the funds request can be
      overtaken by later selections. */
  class ExpenseCreateComponent {
    var employees: seq<Employee>
    var expenseTypes: seq<ExpenseType>
    var filteredEmployees: seq<Employee>
    var departmentFunds: Option<DepartmentFunds>
    var selectedExpenseType: Option<ExpenseType>
    var isLoadingFunds: bool
    var form: ExpenseDraft
    /** Whether `ngOnInit` has added the amount validator to the amount control. */
    var amountValidatorAttached: bool
    /** The amount control's stored `maxAmountExceeded` error, as of its last validation. */
    var amountMaxError: bool
    /** Department ids passed to `getAvailableFunds`, oldest first. */
    var fundsRequests: seq<string>
    /** Payloads passed to `createExpense`, oldest first. */
    var createRequests: seq<ExpenseDraft>
    /** The `amountValidationMessage` computed's cached value, `None` before its first read. */
    var messageCache: Option<MessageCache>
    /** How many times `departmentFunds` and `selectedExpenseType` were set to a new value. */
    var fundsVersion: nat
    var typeVersion: nat
    /** Whether the expense-type effect's last run read `maxAllowedAmount`, which its
        re-validation does when the validator is attached and the amount is positive, and
        the maximum it saw then. */
    var typeEffectReadMax: bool
    var typeEffectSeenMax: real

    constructor (now: string)
      ensures employees == [] && expenseTypes == [] && filteredEmployees == []
      ensures departmentFunds == None && selectedExpenseType == None && !isLoadingFunds
      ensures form == DefaultDraft(now)
      ensures !amountValidatorAttached && !amountMaxError
      ensures fundsRequests == [] && createRequests == []
      ensures messageCache == None && fundsVersion == 0 && typeVersion == 0
      ensures !typeEffectReadMax
    {
      employees, expenseTypes, filteredEmployees := [], [], [];
      departmentFunds, selectedExpenseType, isLoadingFunds := None, None, false;
      form := DefaultDraft(now);
      amountValidatorAttached, amountMaxError := false, false;
      fundsRequests, createRequests := [], [];
      messageCache, fundsVersion, typeVersion := None, 0, 0;
      typeEffectReadMax, typeEffectSeenMax := false, 0.0;
    }

    /** Whether a change of the maximum schedules the expense-type effect again: its last
        run read the maximum, and the maximum now differs from what it saw. */
    predicate TypeEffectRerunsForMax()
      reads this
    {
      typeEffectReadMax && MaxAllowed() != typeEffectSeenMax
    }

    function MaxAllowed(): real
      reads this
    {
      MaxAllowedAmount(departmentFunds, selectedExpenseType)
    }

    function ValidationMessage(): AmountMessage
      reads this
    {
      AmountValidationMessage(form.amount, departmentFunds, selectedExpenseType)
    }

    /** The amount validator's verdict on the current state, if it is attached. */
    predicate AmountRejectedNow()
      reads this
    {
      amountValidatorAttached && AmountValidator(form.amount, departmentFunds, selectedExpenseType)
    }

    /** `expenseForm.valid`: the required and minimum checks on the current values, and
        the amount validator's stored verdict. */
    predicate FormValid()
      reads this
    {
      form.amount.Some? && form.amount.value >= 0.01 &&
      form.date != "" && form.department != "" && form.employee != "" && form.expenseType != "" &&
      !amountMaxError
    }

    /** `ngOnInit` adds the amount validator; adding a validator does not re-run validation. */
    method NgOnInit()
      modifies this`amountValidatorAttached
      ensures amountValidatorAttached
    {
      amountValidatorAttached := true;
    }

    /** The reference lists arriving in the services' signals. */
    method ReceiveReferenceData(allEmployees: seq<Employee>, types: seq<ExpenseType>)
      modifies this`employees, this`expenseTypes
      ensures employees == allEmployees && expenseTypes == types
    {
      employees, expenseTypes := allEmployees, types;
    }

    /** The user types an amount: the control takes the value and re-validates itself. */
    method EnterAmount(amount: Option<real>)
      modifies this`form, this`amountMaxError
      ensures form == old(form).(amount := amount)
      ensures amountMaxError == AmountRejectedNow()
    {
      form := form.(amount := amount);
      amountMaxError := AmountRejectedNow();
    }

    /** Effect 1: recompute the employee list for the selected department and clear an
        employee selection that is no longer in it. */
    method FilterEmployeesEffect()
      modifies this`filteredEmployees, this`form
      ensures filteredEmployees == FilteredEmployees(employees, form.department)
      ensures form.employee == "" || HasEmployee(filteredEmployees, form.employee)
      ensures form.employee ==
                (if old(form.employee) != "" && !HasEmployee(filteredEmployees, old(form.employee)) then ""
                 else old(form.employee))
      ensures form == old(form).(employee := form.employee)
    {
      filteredEmployees := FilteredEmployees(employees, form.department);
      var current := form.employee;
      if current != "" && !HasEmployee(filteredEmployees, current) {
        form := form.(employee := "");
      }
    }

    /** Effect 2: when an employee is selected, set the department to theirs, issuing
        `setValue` only when the department actually differs. */
    method AutoSelectDepartmentEffect() returns (setValueIssued: bool)
      modifies this`form
      ensures var found := FindEmployee(employees, old(form.employee));
              setValueIssued <==> old(form.employee) != "" && found.Some? && found.value.department.Some? &&
                                  found.value.department.value.id != old(form.department)
      ensures var found := FindEmployee(employees, old(form.employee));
              old(form.employee) != "" && found.Some? && found.value.department.Some? ==>
                form.department == found.value.department.value.id
      ensures form == old(form).(department := form.department)
      ensures !setValueIssued ==> form == old(form)
    {
      setValueIssued := false;
      var employeeId := form.employee;
      if employeeId != "" {
        var employee := FindEmployee(employees, employeeId);
        if employee.Some? && employee.value.department.Some? && form.department != employee.value.department.value.id {
          form := form.(department := employee.value.department.value.id);
          setValueIssued := true;
        }
      }
    }

    /** Effect 3: a non-empty department selection starts loading its funds (one request,
        previous snapshot dropped); an empty one drops the snapshot without a request. */
    method FundsEffect()
      modifies this`isLoadingFunds, this`departmentFunds, this`fundsRequests, this`fundsVersion
      ensures departmentFunds == None
      ensures fundsVersion == old(fundsVersion) + (if old(departmentFunds).Some? then 1 else 0)
      ensures form.department != "" ==> isLoadingFunds && fundsRequests == old(fundsRequests) + [form.department]
      ensures form.department == "" ==> isLoadingFunds == old(isLoadingFunds) && fundsRequests == old(fundsRequests)
    {
      var departmentId := form.department;
      if departmentFunds.Some? {
        fundsVersion := fundsVersion + 1;
      }
      if departmentId != "" {
        isLoadingFunds := true;
        departmentFunds := None;
        fundsRequests := fundsRequests + [departmentId];
      } else {
        departmentFunds := None;
      }
    }

    /** The answer to a funds request. Whatever department it was for, success stores the
        funds, clears the loading flag and re-validates the amount; failure only clears the
        loading flag. */
    method ReceiveFunds(response: Response<DepartmentFunds>)
      modifies this`departmentFunds, this`isLoadingFunds, this`amountMaxError, this`fundsVersion
      ensures !isLoadingFunds
      ensures response.Ok? ==> departmentFunds == Some(response.value) && amountMaxError == AmountRejectedNow() &&
                               fundsVersion == old(fundsVersion) + 1
      ensures response.Failed? ==> departmentFunds == old(departmentFunds) && amountMaxError == old(amountMaxError) &&
                                   fundsVersion == old(fundsVersion)
    {
      match response
      case Ok(funds) =>
        departmentFunds := Some(funds);
        fundsVersion := fundsVersion + 1;
        isLoadingFunds := false;
        amountMaxError := AmountRejectedNow();
      case Failed(_) =>
        isLoadingFunds := false;
    }

    /** Effect 4: look up the selected expense type and re-validate the amount. */
    method ExpenseTypeEffect()
      modifies this`selectedExpenseType, this`amountMaxError, this`typeVersion, this`typeEffectReadMax, this`typeEffectSeenMax
      ensures selectedExpenseType == FindExpenseType(expenseTypes, form.expenseType)
      ensures amountMaxError == AmountRejectedNow()
      ensures typeVersion == old(typeVersion) + (if selectedExpenseType != old(selectedExpenseType) then 1 else 0)
      ensures typeEffectReadMax <==> amountValidatorAttached && form.amount.Some? && form.amount.value > 0.0
      ensures typeEffectSeenMax == MaxAllowed() && !TypeEffectRerunsForMax()
    {
      var found := FindExpenseType(expenseTypes, form.expenseType);
      if found != selectedExpenseType {
        typeVersion := typeVersion + 1;
      }
      selectedExpenseType := found;
      typeEffectReadMax := amountValidatorAttached && form.amount.Some? && form.amount.value > 0.0;
      typeEffectSeenMax := MaxAllowed();
      amountMaxError := AmountRejectedNow();
    }

    /** The template reads `amountValidationMessage`: the cached message, recomputed first
        when it never ran or a signal its last run read has changed. Typing an amount
        changes no signal, so it alone never refreshes the message. */
    method ReadValidationMessage() returns (m: AmountMessage)
      modifies this`messageCache
      ensures old(MessageStale(messageCache, MaxAllowed(), fundsVersion, typeVersion)) ==>
                messageCache == Some(ComputeMessage(form.amount, departmentFunds, selectedExpenseType, fundsVersion, typeVersion)) &&
                m == ValidationMessage() &&
                (m != NoMessage <==> AmountValidator(form.amount, departmentFunds, selectedExpenseType))
      ensures !old(MessageStale(messageCache, MaxAllowed(), fundsVersion, typeVersion)) ==>
                messageCache == old(messageCache) && m == messageCache.value.message
    {
      if MessageStale(messageCache, MaxAllowed(), fundsVersion, typeVersion) {
        messageCache := Some(ComputeMessage(form.amount, departmentFunds, selectedExpenseType, fundsVersion, typeVersion));
      }
      m := messageCache.value.message;
    }

    /** The user picks a department, an employee or an expense type in the form; the
        effects that follow are separate steps. */
    method SelectDepartment(id: string)
      modifies this`form
      ensures form == old(form).(department := id)
    {
      form := form.(department := id);
    }

    method SelectEmployee(id: string)
      modifies this`form
      ensures form == old(form).(employee := id)
    {
      form := form.(employee := id);
    }

    method SelectExpenseType(id: string)
      modifies this`form
      ensures form == old(form).(expenseType := id)
    {
      form := form.(expenseType := id);
    }

    /** `onSubmit`: nothing is sent unless the form is valid; a valid form is sent as it
        stands. Success resets the form to its defaults; failure leaves it as it was and
        reports the server's message or a generic one. */
    method OnSubmit(response: Response<()>, now: string) returns (request: Option<ExpenseDraft>, notice: Option<Notice>)
      modifies this`form, this`amountMaxError, this`createRequests
      ensures request.Some? <==> old(FormValid())
      ensures request.Some? ==> request.value == old(form) && createRequests == old(createRequests) + [old(form)]
      ensures request.None? ==> form == old(form) && amountMaxError == old(amountMaxError) &&
                                createRequests == old(createRequests) && notice.None?
      ensures request.Some? && response.Ok? ==>
                form == DefaultDraft(now) && !amountMaxError &&
                notice == Some(SuccessNotice("Витрату успішно створено!"))
      ensures request.Some? && response.Failed? ==>
                form == old(form) && amountMaxError == old(amountMaxError) &&
                notice == Some(ErrorNotice("Помилка створення витрати: " + OrElse(response.message, "Невідома помилка")))
    {
      request, notice := None, None;
      if FormValid() {
        request := Some(form);
        createRequests := createRequests + [form];
        match response
        case Ok(_) =>
          notice := Some(SuccessNotice("Витрату успішно створено!"));
          form := DefaultDraft(now);
          amountMaxError := AmountRejectedNow();
        case Failed(message) =>
          notice := Some(ErrorNotice("Помилка створення витрати: " + OrElse(message, "Невідома помилка")));
      }
    }
  }

  /** A submitted expense never exceeds a known positive maximum: whenever the stored
      amount error is current, a valid form's amount is within both bounds. */
  lemma {:induction false} ValidFormRespectsBudget(amount: Option<real>, funds: Option<DepartmentFunds>, expenseType: Option<ExpenseType>)
    requires amount.Some? && amount.value >= 0.01
    requires !AmountValidator(amount, funds, expenseType)
    requires funds.Some? && expenseType.Some? && expenseType.value.limit.Some?
    requires MaxAllowedAmount(funds, expenseType) > 0.0
    ensures amount.value <= funds.value.available && amount.value <= expenseType.value.limit.value
  {
  }

  /** Two funds responses that arrive out of order: the one that arrives last is kept,
      even when it belongs to a department that is no longer selected. */
  method StaleFundsResponseScenario(fundsA: DepartmentFunds, fundsB: DepartmentFunds)
  {
    var c := new ExpenseCreateComponent("2025-01-01T00:00:00.000Z");
    c.SelectDepartment("A");
    c.FundsEffect();
    c.SelectDepartment("B");
    c.FundsEffect();
    assert c.fundsRequests == ["A", "B"];
    c.ReceiveFunds(Ok(fundsB));
    c.ReceiveFunds(Ok(fundsA));
    assert c.form.department == "B" && c.departmentFunds == Some(fundsA);
  }

  /** The user picks a department, and the funds request that the funds effect then
      issues succeeds: the three steps one after the other. The amount is re-validated
      against the new funds and no other part of the component changes. */
  method ChooseDepartmentWithFunds(c: ExpenseCreateComponent, department: string, funds: DepartmentFunds)
    requires department != ""
    modifies c`form, c`departmentFunds, c`isLoadingFunds, c`fundsRequests, c`fundsVersion, c`amountMaxError
    ensures c.form == old(c.form).(department := department)
    ensures c.departmentFunds == Some(funds) && !c.isLoadingFunds
    ensures c.fundsRequests == old(c.fundsRequests) + [department]
    ensures c.amountMaxError == c.AmountRejectedNow()
  {
    c.SelectDepartment(department);
    c.FundsEffect();
    c.ReceiveFunds(Ok(funds));
  }

  /** The user clears the department, and the funds effect runs for the empty selection:
      the snapshot is dropped, no request is sent and the stored verdict is kept. */
  method ClearDepartment(c: ExpenseCreateComponent)
    modifies c`form, c`departmentFunds, c`isLoadingFunds, c`fundsRequests, c`fundsVersion
    ensures c.form == old(c.form).(department := "")
    ensures c.departmentFunds == None && c.fundsRequests == old(c.fundsRequests)
  {
    c.SelectDepartment("");
    c.FundsEffect();
  }

  /** The expense types arrive as the single type `t`, the user picks it, and the
      expense-type effect runs. */
  method ChooseExpenseType(c: ExpenseCreateComponent, t: ExpenseType)
    modifies c`employees, c`expenseTypes, c`form, c`selectedExpenseType, c`amountMaxError, c`typeVersion,
             c`typeEffectReadMax, c`typeEffectSeenMax
    ensures c.employees == [] && c.expenseTypes == [t]
    ensures c.form == old(c.form).(expenseType := t.id)
    ensures c.selectedExpenseType == Some(t)
    ensures c.amountMaxError == c.AmountRejectedNow()
    ensures c.typeEffectReadMax <==> c.amountValidatorAttached && c.form.amount.Some? && c.form.amount.value > 0.0
    ensures c.typeEffectSeenMax == c.MaxAllowed()
  {
    c.ReceiveReferenceData([], [t]);
    c.SelectExpenseType(t.id);
    c.ExpenseTypeEffect();
  }

  /** With department funds of 0 the maximum is 0, which reads as "unknown": no amount is
      rejected and no message is shown. */
  method ZeroAvailabilityScenario(amount: real)
  {
    var c := new ExpenseCreateComponent("2025-01-01T00:00:00.000Z");
    c.NgOnInit();
    ChooseExpenseType(c, ExpenseType("t", "Travel", None, Some(80.0)));
    ChooseDepartmentWithFunds(c, "d", DepartmentFunds(0.0, 0.0, 0.0, 0.0, 0.0));
    c.EnterAmount(Some(amount));
    assert c.MaxAllowed() == 0.0;
    assert !c.amountMaxError && c.ValidationMessage() == NoMessage;
  }

  /** The page first renders the message while the amount is 0: that computation reads no
      signal, so the message stays empty after an over-budget amount is typed and funds
      arrive, while the amount validator rejects the same amount. */
  method FrozenMessageScenario()
  {
    var t := ExpenseType("t", "Travel", None, Some(80.0));
    var funds := DepartmentFunds(1000.0, 0.0, 0.0, 1000.0, 100.0);
    var c := new ExpenseCreateComponent("2025-01-01T00:00:00.000Z");
    c.NgOnInit();
    var first := c.ReadValidationMessage();
    var frozen := c.messageCache;
    assert first == NoMessage && frozen.Some? && !frozen.value.readMax;
    ChooseExpenseType(c, t);
    ChooseDepartmentWithFunds(c, "d", funds);
    assert c.departmentFunds == Some(funds) && c.messageCache == frozen;
    c.EnterAmount(Some(500.0));
    assert c.amountMaxError;
    var later := c.ReadValidationMessage();
    assert later == NoMessage;
    assert c.ValidationMessage() == DepartmentLimitExceeded(100.0);
  }

  /** Dropping the funds re-validates the amount when the expense-type effect last ran
      with a positive amount: its validation read the maximum, so the maximum falling to 0
      runs it again, and the stored error is cleared. */
  method DroppedFundsRevalidateScenario()
  {
    var c := new ExpenseCreateComponent("2025-01-01T00:00:00.000Z");
    c.NgOnInit();
    ChooseDepartmentWithFunds(c, "d", DepartmentFunds(1000.0, 0.0, 0.0, 1000.0, 100.0));
    c.EnterAmount(Some(500.0));
    ChooseExpenseType(c, ExpenseType("t", "Travel", None, Some(80.0)));
    assert c.amountMaxError && c.typeEffectReadMax && c.typeEffectSeenMax == 80.0;
    ClearDepartment(c);
    assert c.MaxAllowed() == 0.0 && c.TypeEffectRerunsForMax();
    c.ExpenseTypeEffect();
    assert !c.amountMaxError;
  }

  /** When the expense-type effect last ran before any amount was typed, its validation
      read nothing, so dropping the funds leaves a stored error in place while the
      validator would now accept the amount. */
  method StaleAmountErrorScenario()
  {
    var c := new ExpenseCreateComponent("2025-01-01T00:00:00.000Z");
    c.NgOnInit();
    ChooseExpenseType(c, ExpenseType("t", "Travel", None, Some(80.0)));
    assert !c.typeEffectReadMax;
    ChooseDepartmentWithFunds(c, "d", DepartmentFunds(1000.0, 0.0, 0.0, 1000.0, 100.0));
    c.EnterAmount(Some(500.0));
    assert c.amountMaxError;
    ClearDepartment(c);
    assert !c.TypeEffectRerunsForMax();
    assert c.amountMaxError && !c.AmountRejectedNow();
  }
}
