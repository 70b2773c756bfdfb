/** The monthly-limit table (`MonthlyLimitListComponent`): the join of limits with the
    departments' budget figures, the sorted copy of that join, the direction choices and
    the open/close state of the form panel. */
module MonthlyLimitList {
  import opened Common
  import opened Models
  import opened Sorting

  /** A limit with the budget figures of its department and the period key. */
  datatype LimitRow = LimitRow(
    limit: MonthlyLimit,
    carryover: Option<real>,
    effectiveLimit: Option<real>,
    available: Option<real>,
    periodSort: int)

  /** Every value the sort-key signal can hold. */
  datatype SortKey =
    | Period | Id | DepartmentKey | Year | Month | LimitAmount | SpentAmount
    | Carryover | EffectiveLimit | Available

  /** The year `new Date(year, monthIndex)` uses: years 0 to 99 mean 1900 to 1999. */
  function FullYear(year: int): int
  {
    if 0 <= year <= 99 then 1900 + year else year
  }

  /** `new Date(year, month - 1).getTime()`, up to an order-preserving rescaling: the
      number of months since year 0, with months outside 1..12 rolling over into the
      neighbouring years as `Date` does. */
  function PeriodIndex(year: int, month: int): int
  {
    FullYear(year) * 12 + (month - 1)
  }

  /** For years from 100 on and months 1 to 12, the period key orders limits by year and
      then by month. */
  lemma {:induction false} PeriodIndexIsLexicographic(y1: int, m1: int, y2: int, m2: int)
    requires y1 >= 100 && y2 >= 100 && 1 <= m1 <= 12 && 1 <= m2 <= 12
    ensures PeriodIndex(y1, m1) <= PeriodIndex(y2, m2) <==> y1 < y2 || (y1 == y2 && m1 <= m2)
  {
    if y1 < y2 {
      assert y1 * 12 + 12 <= y2 * 12;
    } else if y1 > y2 {
      assert y2 * 12 + 12 <= y1 * 12;
    }
  }

  /** The first department whose id equals the limit's department id; a limit without a
      department matches none. */
  function DepartmentOf(limit: MonthlyLimit, departments: seq<Department>): (r: Option<Department>)
    ensures limit.department.None? ==> r.None?
    ensures r.Some? ==> r.value in departments && limit.department == Some(DepartmentRef(r.value.id))
    ensures limit.department.Some? && r.None? ==> forall i :: 0 <= i < |departments| ==> departments[i].id != limit.department.value.id
    ensures r.Some? ==> exists k :: 0 <= k < |departments| && departments[k] == r.value &&
                                    forall j :: 0 <= j < k ==> departments[j].id != r.value.id
  {
    match limit.department
    case None => None
    case Some(ref) => Find(departments, (d: Department) => d.id == ref.id)
  }

  /** One entry of `limitsWithData`. */
  function JoinRow(limit: MonthlyLimit, departments: seq<Department>): LimitRow
  {
    var d := DepartmentOf(limit, departments);
    LimitRow(
      limit,
      if d.Some? then d.value.carryover else None,
      if d.Some? then d.value.effectiveLimit else None,
      if d.Some? then d.value.available else None,
      PeriodIndex(limit.year, limit.month))
  }

  /** `limitsWithData`: nothing while no department is loaded; otherwise one row per
      limit, in the same order, keeping the limit and taking the budget figures from its
      department, or leaving them undefined when no department matches. */
  function JoinLimits(limits: seq<MonthlyLimit>, departments: seq<Department>): (rows: seq<LimitRow>)
    ensures departments == [] ==> rows == []
    ensures departments != [] ==> |rows| == |limits|
    ensures departments != [] ==> forall i :: 0 <= i < |limits| ==>
              rows[i].limit == limits[i] &&
              rows[i].periodSort == PeriodIndex(limits[i].year, limits[i].month)
    ensures departments != [] ==> forall i :: 0 <= i < |limits| ==>
              var d := DepartmentOf(limits[i], departments);
              (d.None? ==> rows[i].carryover.None? && rows[i].effectiveLimit.None? && rows[i].available.None?) &&
              (d.Some? ==> rows[i].carryover == d.value.carryover && rows[i].effectiveLimit == d.value.effectiveLimit &&
                           rows[i].available == d.value.available)
  {
    if departments == [] || limits == [] then []
    else [JoinRow(limits[0], departments)] + JoinLimits(limits[1..], departments)
  }

  /** The value the sort callback reads: the period key, or `row[key] ?? 0`, where the
      id is a string and a present department is an object. */
  function FieldValue(row: LimitRow, key: SortKey): (v: JsValue)
    ensures v.Num? <==> !(key == Id || (key == DepartmentKey && row.limit.department.Some?))
  {
    match key
    case Period => Num(row.periodSort as real)
    case Id => Str(row.limit.id)
    case DepartmentKey => if row.limit.department.Some? then Other else Num(0.0)
    case Year => Num(row.limit.year as real)
    case Month => Num(row.limit.month as real)
    case LimitAmount => Num(row.limit.limitAmount)
    case SpentAmount => Num(row.limit.spentAmount)
    case Carryover => Num(OrZero(row.carryover))
    case EffectiveLimit => Num(OrZero(row.effectiveLimit))
    case Available => Num(OrZero(row.available))
  }

  /** The ascending comparison: the difference of two numbers, and 0 otherwise. */
  function Comparison(key: SortKey, a: LimitRow, b: LimitRow): real
  {
    var valA := FieldValue(a, key);
    var valB := FieldValue(b, key);
    if valA.Num? && valB.Num? then valA.n - valB.n else 0.0
  }

  function Comparator(key: SortKey, direction: Direction): (LimitRow, LimitRow) -> real
  {
    (a: LimitRow, b: LimitRow) => if direction == Asc then Comparison(key, a, b) else -Comparison(key, a, b)
  }

  /** Where a row falls under a key; the id and the department give every row rank 0,
      since no two of their values are both numbers with different values. */
  function Rank(row: LimitRow, key: SortKey): real
  {
    match key
    case Period => row.periodSort as real
    case Id => 0.0
    case DepartmentKey => 0.0
    case Year => row.limit.year as real
    case Month => row.limit.month as real
    case LimitAmount => row.limit.limitAmount
    case SpentAmount => row.limit.spentAmount
    case Carryover => OrZero(row.carryover)
    case EffectiveLimit => OrZero(row.effectiveLimit)
    case Available => OrZero(row.available)
  }

  lemma ComparisonIsRankDifference(key: SortKey, a: LimitRow, b: LimitRow)
    ensures Comparison(key, a, b) == Rank(a, key) - Rank(b, key)
  {
  }

  /** Rows in ascending period order, for years from 100 on and months 1 to 12, are in
      chronological (year, month) order. */
  lemma {:induction false} PeriodOrderIsChronological(rows: seq<LimitRow>)
    requires forall i :: 0 <= i < |rows| ==>
               rows[i].periodSort == PeriodIndex(rows[i].limit.year, rows[i].limit.month) &&
               rows[i].limit.year >= 100 && 1 <= rows[i].limit.month <= 12
    requires forall i, j :: 0 <= i < j < |rows| ==> Rank(rows[i], Period) <= Rank(rows[j], Period)
    ensures forall i, j :: 0 <= i < j < |rows| ==>
              rows[i].limit.year < rows[j].limit.year ||
              (rows[i].limit.year == rows[j].limit.year && rows[i].limit.month <= rows[j].limit.month)
  {
    forall i, j | 0 <= i < j < |rows|
      ensures rows[i].limit.year < rows[j].limit.year ||
              (rows[i].limit.year == rows[j].limit.year && rows[i].limit.month <= rows[j].limit.month)
    {
      assert Rank(rows[i], Period) <= Rank(rows[j], Period);
      PeriodIndexIsLexicographic(rows[i].limit.year, rows[i].limit.month, rows[j].limit.year, rows[j].limit.month);
    }
  }

  /** Newest first for the period, ascending first for every other key. */
  function DirectionOptions(key: SortKey): (options: seq<DirectionOption>)
    ensures |options| == 2 && options[0].value != options[1].value
    ensures options[0].value == (if key == Period then Desc else Asc)
  {
    if key == Period then
      [DirectionOption(Desc, "Спочатку новіші"), DirectionOption(Asc, "Спочатку старіші")]
    else
      [DirectionOption(Asc, "В порядку зростання"), DirectionOption(Desc, "В порядку спадання")]
  }

  class MonthlyLimitListComponent {
    var limits: seq<MonthlyLimit>
    var departments: seq<Department>
    /** The table's rows, written by the component's effect. */
    var tableData: seq<LimitRow>
    var showForm: bool
    var selectedLimit: Option<MonthlyLimit>
    var sortBy: SortKey
    var sortDirection: Direction

    constructor ()
      ensures limits == [] && departments == [] && tableData == []
      ensures !showForm && selectedLimit == None
      ensures sortBy == Period && sortDirection == Desc
    {
      limits, departments, tableData := [], [], [];
      showForm, selectedLimit := false, None;
      sortBy, sortDirection := Period, Desc;
    }

    /** The limit and department lists arriving in the services' signals. */
    method ReceiveData(ls: seq<MonthlyLimit>, ds: seq<Department>)
      modifies this`limits, this`departments
      ensures limits == ls && departments == ds
    {
      limits, departments := ls, ds;
    }

    /** `sortedLimits`: a permutation of the joined rows, non-decreasing by the key's rank
        for `asc` and non-increasing for `desc`. */
    method SortedLimits() returns (r: seq<LimitRow>)
      ensures multiset(r) == multiset(JoinLimits(limits, departments))
      ensures |r| == (if departments == [] then 0 else |limits|)
      ensures sortDirection == Asc ==> forall i, j :: 0 <= i < j < |r| ==> Rank(r[i], sortBy) <= Rank(r[j], sortBy)
      ensures sortDirection == Desc ==> forall i, j :: 0 <= i < j < |r| ==> Rank(r[i], sortBy) >= Rank(r[j], sortBy)
    {
      var key, direction := sortBy, sortDirection;
      var cmp := Comparator(key, direction);
      var rank := (row: LimitRow) => if direction == Asc then Rank(row, key) else -Rank(row, key);
      forall x: LimitRow, y: LimitRow
        ensures cmp(x, y) <= 0.0 <==> rank(x) <= rank(y)
      {
        ComparisonIsRankDifference(key, x, y);
      }
      RankedComparator(cmp, rank);
      r := SortedCopy(JoinLimits(limits, departments), cmp);
      SortedByRank(r, cmp, rank);
    }

    /** The effect that hands the sorted rows to the table. */
    method TableEffect()
      modifies this`tableData
      ensures multiset(tableData) == multiset(JoinLimits(limits, departments))
      ensures sortDirection == Asc ==> forall i, j :: 0 <= i < j < |tableData| ==> Rank(tableData[i], sortBy) <= Rank(tableData[j], sortBy)
      ensures sortDirection == Desc ==> forall i, j :: 0 <= i < j < |tableData| ==> Rank(tableData[i], sortBy) >= Rank(tableData[j], sortBy)
    {
      tableData := SortedLimits();
    }

    method OnAddNew()
      modifies this`showForm, this`selectedLimit
      ensures showForm && selectedLimit == None
    {
      showForm, selectedLimit := true, None;
    }

    method OnEdit(limit: MonthlyLimit)
      modifies this`showForm, this`selectedLimit
      ensures showForm && selectedLimit == Some(limit)
    {
      showForm, selectedLimit := true, Some(limit);
    }

    method OnFormClose()
      modifies this`showForm, this`selectedLimit
      ensures !showForm && selectedLimit == None
    {
      showForm, selectedLimit := false, None;
    }
  }
}
