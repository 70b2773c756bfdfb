/** The monthly-limit form (`MonthlyLimitFormComponent`): create a limit for a department
    and period, or change the amount of an existing one. */
module MonthlyLimitForm {
  import opened Common
  import opened Models

  /** The form's raw value, which is also the create payload. A cleared number input
      holds `None`. */
  datatype LimitFormValue = LimitFormValue(
    department: string,
    year: Option<int>,
    month: Option<int>,
    limitAmount: Option<real>)

  /** The two requests the form can send. */
  datatype LimitRequest = SetLimit(data: LimitFormValue) | UpdateLimit(id: string, limitAmount: real)

  /** `Validators.required` and `Validators.min(lo)` on a number control (`min` lets an
      empty value through, `required` does not). */
  predicate IntAtLeast(x: Option<int>, lo: int)
  {
    x.Some? && x.value >= lo
  }

  /** Whether the group is valid. Disabled controls do not take part, and in edit mode the
      department, year and month are disabled. */
  predicate FormValid(v: LimitFormValue, periodLocked: bool)
  {
    (periodLocked || (v.department != "" && IntAtLeast(v.year, 2020) && IntAtLeast(v.month, 1) && v.month.value <= 12)) &&
    v.limitAmount.Some? && v.limitAmount.value >= 0.0
  }

  /** The initial value: the current year and one-based month, no department, amount 0. */
  function DefaultValue(currentYear: int, currentMonthIndex: int): LimitFormValue
  {
    LimitFormValue("", Some(currentYear), Some(currentMonthIndex + 1), Some(0.0))
  }

  /** A fresh create form becomes valid as soon as a department is chosen, in any year from
      2020 on. */
  lemma {:induction false} DefaultNeedsOnlyADepartment(currentYear: int, currentMonthIndex: int, department: string)
    requires currentYear >= 2020 && 0 <= currentMonthIndex <= 11
    ensures !FormValid(DefaultValue(currentYear, currentMonthIndex), false)
    ensures FormValid(DefaultValue(currentYear, currentMonthIndex).(department := department), false) <==> department != ""
  {
  }

  class MonthlyLimitFormComponent {
    /** The `limit` input: present when an existing limit is edited. */
    const limit: Option<MonthlyLimit>
    var isEditMode: bool
    var form: LimitFormValue
    /** Whether the department, year and month controls are disabled. */
    var periodLocked: bool

    constructor (input: Option<MonthlyLimit>, currentYear: int, currentMonthIndex: int)
      ensures limit == input && !isEditMode && !periodLocked
      ensures form == DefaultValue(currentYear, currentMonthIndex)
    {
      limit := input;
      isEditMode, periodLocked := false, false;
      form := DefaultValue(currentYear, currentMonthIndex);
    }

    /** `ngOnInit`: with a limit to edit, switch to edit mode, copy its department, period
        and amount into the form and lock the period. A limit without a department makes
        reading its id throw a `TypeError` after edit mode is set, so the form is neither
        patched nor locked. */
    method NgOnInit() returns (threw: bool)
      modifies this`isEditMode, this`form, this`periodLocked
      ensures threw <==> limit.Some? && limit.value.department.None?
      ensures limit.Some? ==> isEditMode
      ensures limit.None? || threw ==> periodLocked == old(periodLocked) && form == old(form)
      ensures limit.None? ==> isEditMode == old(isEditMode)
      ensures limit.Some? && !threw ==>
                periodLocked &&
                form == LimitFormValue(limit.value.department.value.id, Some(limit.value.year),
                                       Some(limit.value.month), Some(limit.value.limitAmount))
    {
      threw := false;
      if limit.Some? {
        isEditMode := true;
        if limit.value.department.None? {
          return true;
        }
        form := LimitFormValue(limit.value.department.value.id, Some(limit.value.year),
                               Some(limit.value.month), Some(limit.value.limitAmount));
        periodLocked := true;
      }
    }

    /** `onSubmit`: an invalid form sends nothing; edit mode sends only the amount with the
        limit's id, create mode the whole form. The form closes only after success. */
    method OnSubmit(response: Response<()>) returns (request: Option<LimitRequest>, notice: Option<Notice>, closed: bool)
      ensures request.Some? <==> FormValid(form, periodLocked)
      ensures request.Some? && isEditMode && limit.Some? ==>
                request == Some(UpdateLimit(limit.value.id, form.limitAmount.value))
      ensures request.Some? && !(isEditMode && limit.Some?) ==> request == Some(SetLimit(form))
      ensures closed <==> request.Some? && response.Ok?
      ensures request.None? ==> notice.None?
      ensures request.Some? && response.Ok? ==>
                notice == Some(SuccessNotice(if isEditMode && limit.Some? then "Ліміт успішно оновлено!" else "Ліміт успішно встановлено"))
      ensures request.Some? && response.Failed? ==> notice == Some(ErrorNotice("Помилка: " + Interpolated(response.message)))
    {
      if !FormValid(form, periodLocked) {
        return None, None, false;
      }
      var success: string;
      if isEditMode && limit.Some? {
        request := Some(UpdateLimit(limit.value.id, form.limitAmount.value));
        success := "Ліміт успішно оновлено!";
      } else {
        request := Some(SetLimit(form));
        success := "Ліміт успішно встановлено";
      }
      match response
      case Ok(_) =>
        notice, closed := Some(SuccessNotice(success)), true;
      case Failed(message) =>
        notice, closed := Some(ErrorNotice("Помилка: " + Interpolated(message))), false;
    }

    /** `cancel`: always closes the form. */
    method Cancel() returns (closed: bool)
      ensures closed
    {
      closed := true;
    }
  }

  /** In edit mode only the amount decides validity: the locked period cannot make the
      form invalid. */
  lemma {:induction false} LockedFormChecksOnlyAmount(v: LimitFormValue)
    ensures FormValid(v, true) <==> v.limitAmount.Some? && v.limitAmount.value >= 0.0
  {
  }
}
