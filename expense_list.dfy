/** The expense table (`ExpenseListComponent`): the four filter controls, pagination
    and the request each load sends. */
module ExpenseList {
  import opened Common
  import opened QueryFilters

  /** The filter form's value; a control reset without a value holds `None`. */
  datatype ExpenseFilters = ExpenseFilters(
    department: Option<string>,
    expenseType: Option<string>,
    employee: Option<string>,
    position: Option<string>)

  /** `Object.entries(filterForm.value)`, in the controls' declaration order. */
  function Entries(f: ExpenseFilters): seq<FilterEntry>
  {
    [("department", f.department), ("expenseType", f.expenseType), ("employee", f.employee), ("position", f.position)]
  }

  /** The parameters of one `getExpenses` call. */
  datatype ExpenseQuery = ExpenseQuery(filters: seq<(string, string)>, page: int, limit: int)

  /** The page size the paginator starts with. */
  const DefaultPageSize := 10

  class ExpenseListComponent {
    var filters: ExpenseFilters
    /** The zero-based page the paginator shows. */
    var pageIndex: int
    var pageSize: int
    /** Queries passed to `getExpenses`, oldest first. */
    var requests: seq<ExpenseQuery>
    /** Whether the debounced filter signal holds a value yet; it starts undefined. */
    var filtersEmitted: bool
    /** Whether the filter effect's last run read `pageIndex` and `pageSize`, which it does
        exactly when the filter signal held a value. */
    var effectReadsPage: bool
    /** Whether the filter effect is scheduled: a signal its last run read has changed. */
    var effectDirty: bool

    constructor ()
      ensures filters == ExpenseFilters(Some(""), Some(""), Some(""), Some(""))
      ensures pageIndex == 0 && pageSize == DefaultPageSize && requests == []
      ensures !filtersEmitted && !effectReadsPage && effectDirty
    {
      filters := ExpenseFilters(Some(""), Some(""), Some(""), Some(""));
      pageIndex, pageSize := 0, DefaultPageSize;
      requests := [];
      filtersEmitted, effectReadsPage, effectDirty := false, false, true;
    }

    /** `loadExpenses`: one request with the non-empty filters and the one-based page. */
    method LoadExpenses()
      modifies this`requests
      ensures requests == old(requests) + [ExpenseQuery(CleanFilters(Entries(filters)), pageIndex + 1, pageSize)]
    {
      requests := requests + [ExpenseQuery(CleanFilters(Entries(filters)), pageIndex + 1, pageSize)];
    }

    /** The user edits the filter controls. */
    method SetFilters(f: ExpenseFilters)
      modifies this`filters
      ensures filters == f
    {
      filters := f;
    }

    /** The debounced `valueChanges` stream emits (the start value, or the controls once
        they have been still for 400 ms): the filter signal takes a new value, which
        schedules the filter effect. */
    method FiltersSettle()
      modifies this`filtersEmitted, this`effectDirty
      ensures filtersEmitted && effectDirty
    {
      filtersEmitted, effectDirty := true, true;
    }

    /** The scheduler flushes the filter effect. It runs only when scheduled. A run that
        finds a filter value goes back to the first page and loads, and by loading it reads
        `pageIndex` and `pageSize`, so a later change of either schedules it again. */
    method FiltersEffect()
      modifies this`pageIndex, this`requests, this`effectReadsPage, this`effectDirty
      ensures !effectDirty
      ensures !old(effectDirty) ==>
                pageIndex == old(pageIndex) && requests == old(requests) && effectReadsPage == old(effectReadsPage)
      ensures old(effectDirty) ==> effectReadsPage == filtersEmitted
      ensures old(effectDirty) && filtersEmitted ==>
                pageIndex == 0 && requests == old(requests) + [ExpenseQuery(CleanFilters(Entries(filters)), 1, pageSize)]
      ensures old(effectDirty) && !filtersEmitted ==> pageIndex == old(pageIndex) && requests == old(requests)
    {
      if effectDirty {
        effectDirty, effectReadsPage := false, filtersEmitted;
        if filtersEmitted {
          pageIndex := 0;
          LoadExpenses();
        }
      }
    }

    /** `handlePageEvent`: take the paginator's page and size, then load. A changed page
        index or size schedules the filter effect when its last run read them. */
    method HandlePageEvent(eventPageIndex: int, eventPageSize: int)
      modifies this`pageIndex, this`pageSize, this`requests, this`effectDirty
      ensures pageIndex == eventPageIndex && pageSize == eventPageSize
      ensures requests == old(requests) + [ExpenseQuery(CleanFilters(Entries(filters)), eventPageIndex + 1, eventPageSize)]
      ensures effectDirty <==>
                old(effectDirty) || (effectReadsPage && (eventPageIndex != old(pageIndex) || eventPageSize != old(pageSize)))
    {
      effectDirty := effectDirty || (effectReadsPage && (eventPageIndex != pageIndex || eventPageSize != pageSize));
      pageIndex, pageSize := eventPageIndex, eventPageSize;
      LoadExpenses();
    }

    /** `clearFilters`: every control back to `''`, so the next load sends no filter. */
    method ClearFilters()
      modifies this`filters
      ensures filters == ExpenseFilters(Some(""), Some(""), Some(""), Some(""))
      ensures CleanFilters(Entries(filters)) == []
    {
      filters := ExpenseFilters(Some(""), Some(""), Some(""), Some(""));
      BlankFiltersCleanToNothing(Entries(filters));
    }
  }

  /** The filters a load sends are exactly the controls holding a non-empty value. */
  lemma SentFiltersAreTheFilledControls(f: ExpenseFilters, name: string, value: string)
    ensures (name, value) in CleanFilters(Entries(f)) <==>
              value != "" &&
              ((name == "department" && f.department == Some(value)) ||
               (name == "expenseType" && f.expenseType == Some(value)) ||
               (name == "employee" && f.employee == Some(value)) ||
               (name == "position" && f.position == Some(value)))
  {
    var e := Entries(f);
    assert (name, Some(value)) in e <==> (name, Some(value)) == e[0] || (name, Some(value)) == e[1] ||
                                         (name, Some(value)) == e[2] || (name, Some(value)) == e[3];
  }

  /** The effect's first run finds no filter value and loads nothing; the start value,
      once debounced, makes it load page 1 with 10 entries and no filters. */
  method FirstLoadScenario()
  {
    var c := new ExpenseListComponent();
    c.FiltersEffect();
    assert c.requests == [];
    c.FiltersSettle();
    c.FiltersEffect();
    BlankFiltersCleanToNothing(Entries(c.filters));
    assert c.requests == [ExpenseQuery([], 1, 10)];
  }

  /** Paging past the first page is undone: the page change re-runs the filter effect,
      which resets the index to 0 and sends a request for page 1 after the one for page 3. */
  method PagingIsUndoneScenario()
  {
    var c := new ExpenseListComponent();
    c.FiltersSettle();
    c.FiltersEffect();
    BlankFiltersCleanToNothing(Entries(c.filters));
    c.HandlePageEvent(2, 10);
    assert c.requests == [ExpenseQuery([], 1, 10), ExpenseQuery([], 3, 10)];
    c.FiltersEffect();
    assert c.pageIndex == 0;
    assert c.requests == [ExpenseQuery([], 1, 10), ExpenseQuery([], 3, 10), ExpenseQuery([], 1, 10)];
  }
}
