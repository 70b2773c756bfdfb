/** The expense-type form (`ExpenseTypeFormComponent`): create a type, or edit one
    passed in. */
module ExpenseTypeForm {
  import opened Common
  import opened Models

  /** The form's raw value, which is the payload of both create and update. */
  datatype TypeFormValue = TypeFormValue(name: string, description: string, limit: Option<real>)

  datatype TypeRequest = CreateType(data: TypeFormValue) | UpdateType(id: string, data: TypeFormValue)

  const DefaultValue := TypeFormValue("", "", Some(0.0))

  /** `name` is required, `limit` is required and at least 0, `description` is free. */
  predicate FormValid(v: TypeFormValue)
  {
    v.name != "" && v.limit.Some? && v.limit.value >= 0.0
  }

  /** `patchValue(t)`: each property of `t` that has a control overwrites it; a property
      `t` lacks leaves its control as it was. */
  function Patched(v: TypeFormValue, t: ExpenseType): TypeFormValue
  {
    TypeFormValue(
      t.name,
      if t.description.Some? then t.description.value else v.description,
      if t.limit.Some? then t.limit else v.limit)
  }

  /** Opening a type with a limit gives a form that is valid exactly when the name is
      non-empty and the limit is not negative, and sends the type's own values. */
  lemma {:induction false} PatchedTypeIsValid(t: ExpenseType)
    requires t.limit.Some?
    ensures FormValid(Patched(DefaultValue, t)) <==> t.name != "" && t.limit.value >= 0.0
    ensures Patched(DefaultValue, t).name == t.name && Patched(DefaultValue, t).limit == t.limit
    ensures t.description.Some? ==> Patched(DefaultValue, t).description == t.description.value
  {
  }

  /** A type without a limit keeps the default limit 0, so its form is valid as soon as it
      has a name. */
  lemma {:induction false} MissingLimitKeepsDefault(t: ExpenseType)
    requires t.limit.None?
    ensures Patched(DefaultValue, t).limit == Some(0.0)
    ensures FormValid(Patched(DefaultValue, t)) <==> t.name != ""
  {
  }

  class ExpenseTypeFormComponent {
    /** The `expenseType` input: present when an existing type is edited. */
    const expenseType: Option<ExpenseType>
    var isEditMode: bool
    var form: TypeFormValue

    constructor (input: Option<ExpenseType>)
      ensures expenseType == input && !isEditMode && form == DefaultValue
    {
      expenseType := input;
      isEditMode := false;
      form := DefaultValue;
    }

    /** `ngOnInit`: with a type to edit, switch to edit mode and patch the form from it. */
    method NgOnInit()
      modifies this`isEditMode, this`form
      ensures expenseType.Some? ==> isEditMode
      ensures expenseType.None? ==> isEditMode == old(isEditMode) && form == old(form)
      ensures expenseType.Some? ==> form == Patched(old(form), expenseType.value)
    {
      if expenseType.Some? {
        isEditMode := true;
        form := Patched(form, expenseType.value);
      }
    }

    /** `onSubmit`: an invalid form sends nothing; edit mode updates the type by id, create
        mode creates one, both with the same payload. The form closes only after success. */
    method OnSubmit(response: Response<()>) returns (request: Option<TypeRequest>, notice: Option<Notice>, closed: bool)
      ensures request.Some? <==> FormValid(form)
      ensures request.Some? ==> request.value.data == form
      ensures request.Some? ==> (request.value.UpdateType? <==> isEditMode && expenseType.Some?)
      ensures request.Some? && request.value.UpdateType? ==> request.value.id == expenseType.value.id
      ensures closed <==> request.Some? && response.Ok?
      ensures request.None? ==> notice.None?
      ensures request.Some? && response.Ok? ==>
                notice == Some(SuccessNotice(if isEditMode && expenseType.Some? then "Тип витрат успішно оновлено!" else "Новий тип витрат створено!"))
      ensures request.Some? && response.Failed? ==> notice == Some(ErrorNotice("Помилка: " + Interpolated(response.message)))
    {
      if !FormValid(form) {
        return None, None, false;
      }
      var success: string;
      if isEditMode && expenseType.Some? {
        request := Some(UpdateType(expenseType.value.id, form));
        success := "Тип витрат успішно оновлено!";
      } else {
        request := Some(CreateType(form));
        success := "Новий тип витрат створено!";
      }
      match response
      case Ok(_) =>
        notice, closed := Some(SuccessNotice(success)), true;
      case Failed(message) =>
        notice, closed := Some(ErrorNotice("Помилка: " + Interpolated(message))), false;
    }

    /** `cancel`: always closes the form. */
    method Cancel() returns (closed: bool)
      ensures closed
    {
      closed := true;
    }
  }
}
