/** The employee table (`EmployeeListComponent`): the two filter controls and inline
    editing of an employee's name, position and department. */
module EmployeeList {
  import opened Common
  import opened Models
  import opened QueryFilters

  datatype EmployeeFilters = EmployeeFilters(department: Option<string>, position: Option<string>)

  function Entries(f: EmployeeFilters): seq<FilterEntry>
  {
    [("department", f.department), ("position", f.position)]
  }

  /** The inline edit form, which is also the update payload. */
  datatype EditForm = EditForm(name: string, position: string, department: string)

  const EmptyEditForm := EditForm("", "", "")

  class EmployeeListComponent {
    var filters: EmployeeFilters
    var editingEmployeeId: Option<string>
    var editForm: EditForm
    /** Filter parameters passed to `getEmployees`, oldest first. */
    var loadRequests: seq<seq<(string, string)>>
    /** (id, payload) pairs passed to `updateEmployee`, oldest first. */
    var updateRequests: seq<(string, EditForm)>

    constructor ()
      ensures filters == EmployeeFilters(Some(""), Some(""))
      ensures editingEmployeeId == None && editForm == EmptyEditForm
      ensures loadRequests == [] && updateRequests == []
    {
      filters := EmployeeFilters(Some(""), Some(""));
      editingEmployeeId, editForm := None, EmptyEditForm;
      loadRequests, updateRequests := [], [];
    }

    /** The user edits the filter controls. */
    method SetFilters(f: EmployeeFilters)
      modifies this`filters
      ensures filters == f
    {
      filters := f;
    }

    /** The effect run when the debounced filter value settles: `loadEmployees` with only
        the non-empty filters. */
    method FiltersEffect()
      modifies this`loadRequests
      ensures loadRequests == old(loadRequests) + [CleanFilters(Entries(filters))]
      ensures forall k, v :: (k, v) in loadRequests[|loadRequests| - 1] <==>
                v != "" && ((k == "department" && filters.department == Some(v)) ||
                            (k == "position" && filters.position == Some(v)))
    {
      var e := Entries(filters);
      assert forall k, v :: (k, Some(v)) in e <==> (k, Some(v)) == e[0] || (k, Some(v)) == e[1];
      loadRequests := loadRequests + [CleanFilters(e)];
    }

    /** `clearFilters`: both controls back to `''`, so the next load sends no filter. */
    method ClearFilters()
      modifies this`filters
      ensures filters == EmployeeFilters(Some(""), Some(""))
      ensures CleanFilters(Entries(filters)) == []
    {
      filters := EmployeeFilters(Some(""), Some(""));
      BlankFiltersCleanToNothing(Entries(filters));
    }

    /** `onEdit`: the edit state takes the employee's id, name, position and department
        id. An employee without a department makes reading its id throw a `TypeError`
        after the id is stored, so the edit form keeps its previous value. */
    method OnEdit(employee: Employee) returns (threw: bool)
      modifies this`editingEmployeeId, this`editForm
      ensures editingEmployeeId == Some(employee.id)
      ensures threw <==> employee.department.None?
      ensures !threw ==> editForm == EditForm(employee.name, employee.position, employee.department.value.id)
      ensures threw ==> editForm == old(editForm)
    {
      editingEmployeeId := Some(employee.id);
      threw := employee.department.None?;
      if !threw {
        editForm := EditForm(employee.name, employee.position, employee.department.value.id);
      }
    }

    method OnCancelEdit()
      modifies this`editingEmployeeId, this`editForm
      ensures editingEmployeeId == None && editForm == EmptyEditForm
    {
      editingEmployeeId, editForm := None, EmptyEditForm;
    }

    /** `onSave`: a name or position of whitespace only is refused without a request;
        otherwise the form is sent as typed, untrimmed, and success closes the edit while
        failure keeps it open. */
    method OnSave(employeeId: string, response: Response<()>) returns (request: Option<(string, EditForm)>, notice: Notice)
      modifies this`editingEmployeeId, this`editForm, this`updateRequests
      ensures var blank := AllWhitespace(old(editForm.name)) || AllWhitespace(old(editForm.position));
              blank ==> request.None? && notice == ErrorNotice("Ім'я та посада не можуть бути порожніми.") &&
                        editingEmployeeId == old(editingEmployeeId) && editForm == old(editForm) &&
                        updateRequests == old(updateRequests)
      ensures var blank := AllWhitespace(old(editForm.name)) || AllWhitespace(old(editForm.position));
              !blank ==> request == Some((employeeId, old(editForm))) &&
                         updateRequests == old(updateRequests) + [(employeeId, old(editForm))]
      ensures var blank := AllWhitespace(old(editForm.name)) || AllWhitespace(old(editForm.position));
              !blank && response.Ok? ==>
                editingEmployeeId == None && editForm == EmptyEditForm &&
                notice == SuccessNotice("Дані співробітника оновлено!")
      ensures var blank := AllWhitespace(old(editForm.name)) || AllWhitespace(old(editForm.position));
              !blank && response.Failed? ==>
                editingEmployeeId == old(editingEmployeeId) && editForm == old(editForm) &&
                notice == ErrorNotice("Помилка: " + Interpolated(response.message))
    {
      TrimIsEmptyIff(editForm.name);
      TrimIsEmptyIff(editForm.position);
      if Trim(editForm.name) == [] || Trim(editForm.position) == [] {
        return None, ErrorNotice("Ім'я та посада не можуть бути порожніми.");
      }
      request := Some((employeeId, editForm));
      updateRequests := updateRequests + [(employeeId, editForm)];
      match response
      case Ok(_) =>
        notice := SuccessNotice("Дані співробітника оновлено!");
        OnCancelEdit();
      case Failed(message) =>
        notice := ErrorNotice("Помилка: " + Interpolated(message));
    }
  }
}
