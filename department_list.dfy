/** The department table (`DepartmentListComponent`): the sort-direction choices,
    the sorted copy of the department list, and inline renaming. */
module DepartmentList {
  import opened Common
  import opened Models
  import opened Sorting

  /** Every value the sort-key signal can hold: the department's own fields and the
      budget figures. `Limit` and `Spent` name properties the records do not carry. */
  datatype SortKey =
    | Id | Name | NumberOfEmployees | CreatedAt | UpdatedAt
    | LimitAmount | SpentAmount | Carryover | EffectiveLimit | Available
    | Limit | Spent

  /** `localeCompare` and `new Date(s).getTime()`, each read through a rank: two strings
      compare as their ranks do. */
  datatype Collation = Collation(rank: string -> int, time: string -> int)

  /** `department[key] ?? 0`: the text fields are strings, everything else a number. */
  function FieldValue(d: Department, key: SortKey): (v: JsValue)
    ensures v.Str? <==> key == Id || key == Name || key == CreatedAt || key == UpdatedAt
    ensures !v.Other?
  {
    match key
    case Id => Str(d.id)
    case Name => Str(d.name)
    case NumberOfEmployees => Num(d.numberOfEmployees)
    case CreatedAt => Str(d.createdAt)
    case UpdatedAt => Str(d.updatedAt)
    case LimitAmount => Num(OrZero(d.limitAmount))
    case SpentAmount => Num(OrZero(d.spentAmount))
    case Carryover => Num(OrZero(d.carryover))
    case EffectiveLimit => Num(OrZero(d.effectiveLimit))
    case Available => Num(OrZero(d.available))
    case Limit => Num(0.0)
    case Spent => Num(0.0)
  }

  /** The ascending comparison inside the sort callback: timestamps for `createdAt`,
      collation for two strings, subtraction for two numbers, and 0 otherwise. */
  function Comparison(key: SortKey, c: Collation, a: Department, b: Department): real
  {
    var valA := FieldValue(a, key);
    var valB := FieldValue(b, key);
    if key == CreatedAt then (c.time(valA.s) - c.time(valB.s)) as real
    else if valA.Str? && valB.Str? then (c.rank(valA.s) - c.rank(valB.s)) as real
    else if valA.Num? && valB.Num? then valA.n - valB.n
    else 0.0
  }

  /** The sort callback: the comparison, negated for `desc`. */
  function Comparator(key: SortKey, direction: Direction, c: Collation): (Department, Department) -> real
  {
    (a: Department, b: Department) =>
      if direction == Asc then Comparison(key, c, a, b) else -Comparison(key, c, a, b)
  }

  /** Where a department falls under a key: its creation time, the collation rank of a
      text field, or the number with a missing value read as 0. */
  function Rank(d: Department, key: SortKey, c: Collation): real
  {
    match key
    case Id => c.rank(d.id) as real
    case Name => c.rank(d.name) as real
    case CreatedAt => c.time(d.createdAt) as real
    case UpdatedAt => c.rank(d.updatedAt) as real
    case NumberOfEmployees => d.numberOfEmployees
    case LimitAmount => OrZero(d.limitAmount)
    case SpentAmount => OrZero(d.spentAmount)
    case Carryover => OrZero(d.carryover)
    case EffectiveLimit => OrZero(d.effectiveLimit)
    case Available => OrZero(d.available)
    case Limit => 0.0
    case Spent => 0.0
  }

  /** Every key yields values of one type, so the comparison is always the difference of
      the two ranks and the "different types compare equal" branch is never taken. */
  lemma ComparisonIsRankDifference(key: SortKey, c: Collation, a: Department, b: Department)
    ensures Comparison(key, c, a, b) == Rank(a, key, c) - Rank(b, key, c)
  {
  }

  /** The two entries of the direction dropdown: newest first for the creation date,
      ascending first for every other key. */
  function DirectionOptions(key: SortKey): (options: seq<DirectionOption>)
    ensures |options| == 2 && options[0].value != options[1].value
    ensures options[0].value == (if key == CreatedAt then Desc else Asc)
  {
    if key == CreatedAt then
      [DirectionOption(Desc, "Спочатку новіші"), DirectionOption(Asc, "Спочатку старіші")]
    else
      [DirectionOption(Asc, "В порядку зростання"), DirectionOption(Desc, "В порядку спадання")]
  }

  class DepartmentListComponent {
    /** The department service's list. */
    var departments: seq<Department>
    var editingDepartmentId: Option<string>
    var editedDepartmentName: string
    var sortBy: SortKey
    var sortDirection: Direction
    /** (id, name) pairs passed to `updateDepartment`, oldest first. */
    var updateRequests: seq<(string, string)>

    constructor ()
      ensures departments == [] && updateRequests == []
      ensures editingDepartmentId == None && editedDepartmentName == ""
      ensures sortBy == CreatedAt && sortDirection == Desc
    {
      departments, updateRequests := [], [];
      editingDepartmentId, editedDepartmentName := None, "";
      sortBy, sortDirection := CreatedAt, Desc;
    }

    /** The department list arriving in the service's signal. */
    method ReceiveDepartments(ds: seq<Department>)
      modifies this`departments
      ensures departments == ds
    {
      departments := ds;
    }

    /** `sortedDepartments`: a sorted copy of the list, a permutation of it that is
        non-decreasing by the key's rank for `asc` and non-increasing for `desc`. */
    method SortedDepartments(c: Collation) returns (r: seq<Department>)
      ensures multiset(r) == multiset(departments) && |r| == |departments|
      ensures sortDirection == Asc ==> forall i, j :: 0 <= i < j < |r| ==> Rank(r[i], sortBy, c) <= Rank(r[j], sortBy, c)
      ensures sortDirection == Desc ==> forall i, j :: 0 <= i < j < |r| ==> Rank(r[i], sortBy, c) >= Rank(r[j], sortBy, c)
    {
      var key, direction := sortBy, sortDirection;
      var cmp := Comparator(key, direction, c);
      var rank := (d: Department) => if direction == Asc then Rank(d, key, c) else -Rank(d, key, c);
      forall x: Department, y: Department
        ensures cmp(x, y) <= 0.0 <==> rank(x) <= rank(y)
      {
        ComparisonIsRankDifference(key, c, x, y);
      }
      RankedComparator(cmp, rank);
      r := SortedCopy(departments, cmp);
      SortedByRank(r, cmp, rank);
    }

    method OnEdit(d: Department)
      modifies this`editingDepartmentId, this`editedDepartmentName
      ensures editingDepartmentId == Some(d.id) && editedDepartmentName == d.name
    {
      editingDepartmentId, editedDepartmentName := Some(d.id), d.name;
    }

    method OnCancelEdit()
      modifies this`editingDepartmentId, this`editedDepartmentName
      ensures editingDepartmentId == None && editedDepartmentName == ""
    {
      editingDepartmentId, editedDepartmentName := None, "";
    }

    /** `onSave`: a name of whitespace only is refused without a request and the edit
        stays open; otherwise the name is sent as typed, success closes the edit and
        failure keeps it open with the server's message. */
    method OnSave(d: Department, response: Response<()>) returns (request: Option<(string, string)>, notice: Notice)
      modifies this`editingDepartmentId, this`editedDepartmentName, this`updateRequests
      ensures AllWhitespace(old(editedDepartmentName)) ==>
                request.None? && notice == ErrorNotice("Назва не може бути порожньою.") &&
                editingDepartmentId == old(editingDepartmentId) && editedDepartmentName == old(editedDepartmentName) &&
                updateRequests == old(updateRequests)
      ensures !AllWhitespace(old(editedDepartmentName)) ==>
                request == Some((d.id, old(editedDepartmentName))) &&
                updateRequests == old(updateRequests) + [(d.id, old(editedDepartmentName))]
      ensures !AllWhitespace(old(editedDepartmentName)) && response.Ok? ==>
                editingDepartmentId == None && editedDepartmentName == "" &&
                notice == SuccessNotice("Назву відділу оновлено!")
      ensures !AllWhitespace(old(editedDepartmentName)) && response.Failed? ==>
                editingDepartmentId == old(editingDepartmentId) && editedDepartmentName == old(editedDepartmentName) &&
                notice == ErrorNotice("Помилка: " + Interpolated(response.message))
    {
      TrimIsEmptyIff(editedDepartmentName);
      if Trim(editedDepartmentName) == [] {
        return None, ErrorNotice("Назва не може бути порожньою.");
      }
      request := Some((d.id, editedDepartmentName));
      updateRequests := updateRequests + [(d.id, editedDepartmentName)];
      match response
      case Ok(_) =>
        notice := SuccessNotice("Назву відділу оновлено!");
        OnCancelEdit();
      case Failed(message) =>
        notice := ErrorNotice("Помилка: " + Interpolated(message));
    }

    /** `onBlurSave`, once its delay has passed: saves only if the same department is
        still being edited, and otherwise does nothing. */
    method OnBlurSave(d: Department, response: Response<()>) returns (saved: bool, request: Option<(string, string)>, notice: Option<Notice>)
      modifies this`editingDepartmentId, this`editedDepartmentName, this`updateRequests
      ensures saved <==> old(editingDepartmentId) == Some(d.id)
      ensures saved <==> notice.Some?
      ensures !saved ==> request.None? &&
                         editingDepartmentId == old(editingDepartmentId) && editedDepartmentName == old(editedDepartmentName) &&
                         updateRequests == old(updateRequests)
      ensures saved && AllWhitespace(old(editedDepartmentName)) ==>
                request.None? && notice == Some(ErrorNotice("Назва не може бути порожньою.")) &&
                editingDepartmentId == old(editingDepartmentId) && editedDepartmentName == old(editedDepartmentName) &&
                updateRequests == old(updateRequests)
      ensures saved && !AllWhitespace(old(editedDepartmentName)) ==>
                request == Some((d.id, old(editedDepartmentName))) &&
                updateRequests == old(updateRequests) + [(d.id, old(editedDepartmentName))]
      ensures saved && !AllWhitespace(old(editedDepartmentName)) && response.Ok? ==>
                editingDepartmentId == None && editedDepartmentName == "" &&
                notice == Some(SuccessNotice("Назву відділу оновлено!"))
      ensures saved && !AllWhitespace(old(editedDepartmentName)) && response.Failed? ==>
                editingDepartmentId == old(editingDepartmentId) && editedDepartmentName == old(editedDepartmentName) &&
                notice == Some(ErrorNotice("Помилка: " + Interpolated(response.message)))
    {
      saved, request, notice := false, None, None;
      if editingDepartmentId == Some(d.id) {
        var n;
        request, n := OnSave(d, response);
        saved, notice := true, Some(n);
      }
    }
  }
}
