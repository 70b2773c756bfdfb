/** The expense-type table (`ExpenseTypeListComponent`): the list sorted by limit, with
    a missing limit read as minus infinity, and the open/close state of the form panel. */
module ExpenseTypeList {
  import opened Common
  import opened Models
  import opened Sorting

  /** The JavaScript numbers the comparator can produce. */
  datatype JsNumber = NaN | NegInf | PosInf | Finite(r: real)

  /** `limit ?? -Infinity`. */
  function LimitKey(t: ExpenseType): JsNumber
  {
    if t.limit.Some? then Finite(t.limit.value) else NegInf
  }

  /** IEEE subtraction on the values `LimitKey` produces: infinity minus itself is NaN. */
  function Subtract(x: JsNumber, y: JsNumber): JsNumber
  {
    match (x, y)
    case (Finite(a), Finite(b)) => Finite(a - b)
    case (NegInf, Finite(_)) => NegInf
    case (Finite(_), NegInf) => PosInf
    case _ => NaN
  }

  /** Unary minus; minus NaN is NaN. */
  function Negate(x: JsNumber): JsNumber
  {
    match x
    case NaN => NaN
    case NegInf => PosInf
    case PosInf => NegInf
    case Finite(a) => Finite(-a)
  }

  /** What `Array.prototype.sort` makes of a comparator result: only its sign counts,
      and NaN counts as 0. */
  function SortValue(x: JsNumber): real
  {
    match x
    case NaN => 0.0
    case NegInf => -1.0
    case PosInf => 1.0
    case Finite(a) => a
  }

  /** The sort callback as the sort reads it. */
  function Comparator(direction: Direction): (ExpenseType, ExpenseType) -> real
  {
    (a: ExpenseType, b: ExpenseType) =>
      var comparison := Subtract(LimitKey(a), LimitKey(b));
      SortValue(if direction == Asc then comparison else Negate(comparison))
  }

  /** The order the ascending comparator induces: a missing limit comes before every
      present one, two missing limits tie, and present limits compare as numbers. */
  predicate LimitNoGreater(a: Option<real>, b: Option<real>)
  {
    a.None? || (b.Some? && a.value <= b.value)
  }

  /** `desc` is the exact negation of `asc`, NaN included. */
  lemma DescendingNegatesAscending(a: ExpenseType, b: ExpenseType)
    ensures Comparator(Desc)(a, b) == -Comparator(Asc)(a, b)
  {
  }

  lemma AscendingSign(a: ExpenseType, b: ExpenseType)
    ensures Comparator(Asc)(a, b) <= 0.0 <==> LimitNoGreater(a.limit, b.limit)
  {
  }

  lemma DescendingSign(a: ExpenseType, b: ExpenseType)
    ensures Comparator(Desc)(a, b) <= 0.0 <==> LimitNoGreater(b.limit, a.limit)
  {
    DescendingNegatesAscending(a, b);
    DescendingNegatesAscending(b, a);
    AscendingSign(b, a);
  }

  /** Both directions order consistently. */
  lemma {:induction false} ComparatorIsTotalPreorder(direction: Direction)
    ensures TotalPreorder(Comparator(direction))
  {
    var cmp := Comparator(direction);
    forall x, y
      ensures NoLater(cmp, x, y) <==>
              (if direction == Asc then LimitNoGreater(x.limit, y.limit) else LimitNoGreater(y.limit, x.limit))
    {
      AscendingSign(x, y);
      DescendingSign(x, y);
    }
  }

  class ExpenseTypeListComponent {
    var expenseTypes: seq<ExpenseType>
    /** The table's rows, written by the component's effect. */
    var tableData: seq<ExpenseType>
    var showForm: bool
    var selectedExpenseType: Option<ExpenseType>
    var sortDirection: Direction

    constructor ()
      ensures expenseTypes == [] && tableData == []
      ensures !showForm && selectedExpenseType == None
      ensures sortDirection == Asc
    {
      expenseTypes, tableData := [], [];
      showForm, selectedExpenseType := false, None;
      sortDirection := Asc;
    }

    /** The expense-type list arriving in the service's signal. */
    method ReceiveExpenseTypes(types: seq<ExpenseType>)
      modifies this`expenseTypes
      ensures expenseTypes == types
    {
      expenseTypes := types;
    }

    /** `sortedExpenseTypes`: a permutation of the list, ordered by limit; for `asc` the
        types without a limit come first, for `desc` last. */
    method SortedExpenseTypes() returns (r: seq<ExpenseType>)
      ensures multiset(r) == multiset(expenseTypes) && |r| == |expenseTypes|
      ensures sortDirection == Asc ==> forall i, j :: 0 <= i < j < |r| ==> LimitNoGreater(r[i].limit, r[j].limit)
      ensures sortDirection == Desc ==> forall i, j :: 0 <= i < j < |r| ==> LimitNoGreater(r[j].limit, r[i].limit)
      ensures sortDirection == Asc ==> forall i, j :: 0 <= i < j < |r| && r[j].limit.None? ==> r[i].limit.None?
      ensures sortDirection == Desc ==> forall i, j :: 0 <= i < j < |r| && r[i].limit.None? ==> r[j].limit.None?
    {
      var cmp := Comparator(sortDirection);
      ComparatorIsTotalPreorder(sortDirection);
      r := SortedCopy(expenseTypes, cmp);
      forall i, j | 0 <= i < j < |r|
        ensures sortDirection == Asc ==> LimitNoGreater(r[i].limit, r[j].limit)
        ensures sortDirection == Desc ==> LimitNoGreater(r[j].limit, r[i].limit)
      {
        assert cmp(r[i], r[j]) <= 0.0;
        AscendingSign(r[i], r[j]);
        DescendingSign(r[i], r[j]);
      }
    }

    /** The effect that hands the sorted list to the table. */
    method TableEffect()
      modifies this`tableData
      ensures multiset(tableData) == multiset(expenseTypes)
      ensures sortDirection == Asc ==> forall i, j :: 0 <= i < j < |tableData| ==> LimitNoGreater(tableData[i].limit, tableData[j].limit)
      ensures sortDirection == Desc ==> forall i, j :: 0 <= i < j < |tableData| ==> LimitNoGreater(tableData[j].limit, tableData[i].limit)
    {
      tableData := SortedExpenseTypes();
    }

    method OnAddNew()
      modifies this`showForm, this`selectedExpenseType
      ensures showForm && selectedExpenseType == None
    {
      showForm, selectedExpenseType := true, None;
    }

    method OnEdit(t: ExpenseType)
      modifies this`showForm, this`selectedExpenseType
      ensures showForm && selectedExpenseType == Some(t)
    {
      showForm, selectedExpenseType := true, Some(t);
    }

    method OnFormClose()
      modifies this`showForm, this`selectedExpenseType
      ensures !showForm && selectedExpenseType == None
    {
      showForm, selectedExpenseType := false, None;
    }
  }
}
