/** The filter cleaning the expense list and the employee list apply before a request:
    `Object.fromEntries(Object.entries(filters).filter(([_, v]) => v != null && v !== ''))`. */
module QueryFilters {
  import opened Common

  /** One filter control: its name and its value, `None` for null or undefined. */
  type FilterEntry = (string, Option<string>)

  /** The entries kept, in their original order, with the values unwrapped. */
  function CleanFilters(entries: seq<FilterEntry>): (params: seq<(string, string)>)
    ensures |params| <= |entries|
    ensures forall k, v :: (k, v) in params <==> (k, Some(v)) in entries && v != ""
  {
    if entries == [] then []
    else
      var rest := CleanFilters(entries[1..]);
      assert forall e :: e in entries <==> e == entries[0] || e in entries[1..];
      match entries[0].1
      case Some(v) => if v != "" then [(entries[0].0, v)] + rest else rest
      case None => rest
  }

  /** Cleaning splits over concatenation, so kept entries stay in their relative order. */
  lemma {:induction false} CleanFiltersConcat(a: seq<FilterEntry>, b: seq<FilterEntry>)
    ensures CleanFilters(a + b) == CleanFilters(a) + CleanFilters(b)
  {
    if a == [] {
      assert a + b == b;
    } else {
      assert (a + b)[0] == a[0] && (a + b)[1..] == a[1..] + b;
      CleanFiltersConcat(a[1..], b);
    }
  }

  /** Filters that are all empty or missing produce no parameters. */
  lemma {:induction false} BlankFiltersCleanToNothing(entries: seq<FilterEntry>)
    requires forall i :: 0 <= i < |entries| ==> entries[i].1 == Some("") || entries[i].1 == None
    ensures CleanFilters(entries) == []
  {
    if entries != [] {
      BlankFiltersCleanToNothing(entries[1..]);
    }
  }
}
