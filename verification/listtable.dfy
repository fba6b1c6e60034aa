/** The rules of the admin list table that decide something rather than
    print it: pagination arguments and the current page, the selected bulk
    action, the layout of row actions, the normalisation of sortable
    columns and the count of visible ones, the sort-link toggle, and the
    state kept between calls by the bulk-action dropdown and the row
    class. The request (`$_REQUEST`, `$_GET`) and WordPress's screen
    helpers are parameters. */
module ListTables {
  import opened Php

  // ---------------------------------------------------------------------
  // PHP truthiness
  // ---------------------------------------------------------------------

  /** `empty($v)`: null, false, 0, `''`, `'0'` and the empty array. */
  predicate EmptyValue(v: Value)
  {
    match v
    case Null => true
    case Bool(b) => !b
    case Int(i) => i == 0
    case Str(s) => s == "" || s == "0"
    case Date(_) => false
    case Arr(m) => |m| == 0
  }

  /** `(array) $v`: an array stays as it is, null becomes the empty array
      and any other value becomes a one-element list. */
  function ToArray(v: Value): (r: map<string, Value>)
    ensures v.Arr? ==> r == v.items
    ensures v.Null? ==> r == map[]
    ensures !v.Arr? && !v.Null? ==> r.Keys == {"0"} && r["0"] == v
  {
    match v
    case Arr(m) => m
    case Null => map[]
    case _ => map["0" := v]
  }

  /** `$text == $v` for a request string against a stored value. */
  predicate LooseEqualsText(text: string, v: Value)
  {
    match v
    case Null => text == ""
    case Bool(b) => b == !EmptyText(Some(text))
    case Int(i) => text == IntToString(i)
    case Str(s) => text == s
    case Date(_) => false
    case Arr(_) => false
  }

  // ---------------------------------------------------------------------
  // Pagination
  // ---------------------------------------------------------------------

  /** `ceil($a / $b)` for a positive divisor. */
  function CeilDiv(a: int, b: int): (r: int)
    requires b > 0
    ensures r * b >= a && (r - 1) * b < a
  {
    var q := (-a) / b;
    assert -a == q * b + (-a) % b;
    -q
  }

  const PaginationKeys: set<string> := {"total_items", "total_pages", "per_page"}

  /** The argument `wp_parse_args` leaves under `k`: the caller's value, or
      the default 0. */
  function Arg(args: map<string, int>, k: string): int
  {
    if k in args then args[k] else 0
  }

  /** What `set_pagination_args` stores: the caller's arguments over
      defaults of 0, with the page count derived from the item count and
      the page size when it is missing. */
  function PaginationArgs(args: map<string, int>): (r: map<string, int>)
    ensures r.Keys == args.Keys + PaginationKeys
    ensures forall k :: k in r && k != "total_pages" ==> r[k] == Arg(args, k)
    ensures Arg(args, "total_pages") != 0 ==> r["total_pages"] == args["total_pages"]
    ensures Arg(args, "total_pages") == 0 && Arg(args, "per_page") <= 0 ==> r["total_pages"] == 0
    ensures Arg(args, "total_pages") == 0 && Arg(args, "per_page") > 0 ==>
      var pages, size, total := r["total_pages"], args["per_page"], Arg(args, "total_items");
      pages * size >= total && (pages - 1) * size < total
  {
    var parsed := map k | k in args.Keys + PaginationKeys :: Arg(args, k);
    if parsed["total_pages"] == 0 && parsed["per_page"] > 0 then
      parsed["total_pages" := CeilDiv(parsed["total_items"], parsed["per_page"])]
    else
      parsed
  }

  /** `absint($_REQUEST['paged'])`, or 0 when the request has no page. */
  function RequestedPage(paged: Option<int>): nat
  {
    match paged
    case None => 0
    case Some(p) => if p < 0 then -p else p
  }

  function Max(a: int, b: int): int
  {
    if a >= b then a else b
  }

  /** `get_pagenum`: the requested page, clamped to the stored page count
      when there is one, and never below 1. */
  function PageNum(stored: map<string, int>, paged: Option<int>): (r: int)
    ensures r >= 1
    ensures "total_pages" in stored ==> r <= Max(1, stored["total_pages"])
    ensures "total_pages" !in stored || RequestedPage(paged) <= stored["total_pages"] ==>
      r == Max(1, RequestedPage(paged))
    ensures "total_pages" in stored && RequestedPage(paged) > stored["total_pages"] ==>
      r == Max(1, stored["total_pages"])
  {
    var requested := RequestedPage(paged);
    var page := if "total_pages" in stored && requested > stored["total_pages"]
                then stored["total_pages"] else requested;
    Max(1, page)
  }

  /** When the page count was derived from a positive number of items, the
      current page is never past the last item: it starts at an item that
      exists. */
  lemma CurrentPageHoldsItems(args: map<string, int>, paged: Option<int>)
    requires Arg(args, "total_pages") == 0
    requires Arg(args, "per_page") > 0 && Arg(args, "total_items") > 0
    ensures var stored := PaginationArgs(args);
      (PageNum(stored, paged) - 1) * args["per_page"] < args["total_items"]
  {
    var stored := PaginationArgs(args);
    var pages, size := stored["total_pages"], args["per_page"];
    var page := PageNum(stored, paged);
    assert pages >= 1;
    assert page <= pages;
    assert (page - 1) * size <= (pages - 1) * size by {
      MultiplyMonotonic(page - 1, pages - 1, size);
    }
  }

  lemma MultiplyMonotonic(a: int, b: int, c: nat)
    requires a <= b
    ensures a * c <= b * c
  {
    assert b * c - a * c == (b - a) * c;
  }

  // ---------------------------------------------------------------------
  // Bulk actions
  // ---------------------------------------------------------------------

  /** A request value that names an action: present and not `-1`. */
  predicate Chosen(value: Option<string>)
  {
    value.Some? && value.value != "-1"
  }

  /** `current_action`: the top dropdown's action, else the bottom one's,
      else none (`false` in the source). */
  function CurrentAction(action: Option<string>, action2: Option<string>): (r: Option<string>)
    ensures Chosen(action) ==> r == action
    ensures r.None? <==> !Chosen(action) && !Chosen(action2)
    ensures r.Some? ==> Chosen(r) && (r == action || r == action2)
  {
    if Chosen(action) then action
    else if Chosen(action2) then action2
    else None
  }

  // ---------------------------------------------------------------------
  // Row actions
  // ---------------------------------------------------------------------

  function RowActionsOpen(alwaysVisible: bool): string
  {
    "<div class=\"" + (if alwaysVisible then "row-actions-visible" else "row-actions") + "\">"
  }

  /** One action's span, with its link followed by `sep`. */
  function Span(action: (string, string), sep: string): string
  {
    "<span class='" + action.0 + "'>" + action.1 + sep + "</span>"
  }

  /** The span of an action that is not the last one. */
  function SeparatedSpan(action: (string, string)): string
  {
    Span(action, " | ")
  }

  /** The spans of the first `k` actions, as the counting loop writes
      them: the separator goes into every span but the one whose position
      equals the number of actions. */
  function SpanRun(actions: seq<(string, string)>, k: nat): string
    requires k <= |actions|
  {
    if k == 0 then ""
    else SpanRun(actions, k - 1) + Span(actions[k - 1], if k == |actions| then "" else " | ")
  }

  /** The text `row_actions` returns. */
  function RowActionsText(actions: seq<(string, string)>, alwaysVisible: bool): (r: string)
    ensures r == "" <==> actions == []
  {
    if actions == [] then ""
    else RowActionsOpen(alwaysVisible) + SpanRun(actions, |actions|) + "</div>"
  }

  lemma {:induction false} SpanRunBeforeLast(actions: seq<(string, string)>, k: nat)
    requires k < |actions|
    ensures SpanRun(actions, k) == ConcatMap(actions[..k], SeparatedSpan)
  {
    if k > 0 {
      SpanRunBeforeLast(actions, k - 1);
      assert actions[..k][..k - 1] == actions[..k - 1];
    }
  }

  /** Every action but the last is followed by `' | '`; the last one by
      nothing. */
  lemma RowActionsLayout(actions: seq<(string, string)>, alwaysVisible: bool)
    requires actions != []
    ensures var n := |actions|;
      RowActionsText(actions, alwaysVisible)
      == RowActionsOpen(alwaysVisible)
         + ConcatMap(actions[..n - 1], SeparatedSpan) + Span(actions[n - 1], "")
         + "</div>"
  {
    SpanRunBeforeLast(actions, |actions| - 1);
  }

  /** `row_actions`: a counting loop over the actions. */
  method RowActions(actions: seq<(string, string)>, alwaysVisible: bool) returns (out: string)
    ensures out == RowActionsText(actions, alwaysVisible)
  {
    var count := |actions|;
    if count == 0 {
      return "";
    }
    var open := RowActionsOpen(alwaysVisible);
    out := open;
    var i := 0;
    while i < count
      invariant 0 <= i <= count
      invariant out == open + SpanRun(actions, i)
    {
      var (action, link) := actions[i];
      i := i + 1;
      var sep := if i == count then "" else " | ";
      Assoc(open, SpanRun(actions, i - 1), Span((action, link), sep));
      out := out + ("<span class='" + action + "'>" + link + sep + "</span>");
    }
    out := out + "</div>";
  }

  // ---------------------------------------------------------------------
  // Columns
  // ---------------------------------------------------------------------

  /** A sortable entry as `get_column_info` keeps it: an array whose
      element 1 (the "descending first" flag) is set, false by default. */
  function SortableEntry(data: Value): (r: Value)
    ensures r.Arr? && IsSet(r.items, "1")
    ensures r.items.Keys == ToArray(data).Keys + {"1"}
    ensures forall k :: k in ToArray(data) && k != "1" ==> r.items[k] == ToArray(data)[k]
    ensures IsSet(ToArray(data), "1") ==> r.items["1"] == ToArray(data)["1"]
    ensures !IsSet(ToArray(data), "1") ==> r.items["1"] == Bool(false)
  {
    var a := ToArray(data);
    if IsSet(a, "1") then Arr(a) else Arr(a["1" := Bool(false)])
  }

  /** The sortable columns `get_column_info` keeps. */
  function Sortable(raw: map<string, Value>): (r: map<string, Value>)
    ensures forall id :: id in r <==> id in raw && !EmptyValue(raw[id])
    ensures forall id :: id in r ==> r[id] == SortableEntry(raw[id])
    ensures forall id :: id in r ==> r[id].Arr? && IsSet(r[id].items, "1")
  {
    map id | id in raw && !EmptyValue(raw[id]) :: SortableEntry(raw[id])
  }

  /** The loop of `get_column_info` over the declared sortable columns. */
  method NormaliseSortable(raw: map<string, Value>) returns (sortable: map<string, Value>)
    ensures sortable == Sortable(raw)
  {
    sortable := map[];
    var todo := raw.Keys;
    while todo != {}
      invariant todo <= raw.Keys
      invariant forall id :: id in sortable <==> id in raw && id !in todo && !EmptyValue(raw[id])
      invariant forall id :: id in sortable ==> sortable[id] == SortableEntry(raw[id])
      decreases todo
    {
      var id :| id in todo;
      todo := todo - {id};
      var data := raw[id];
      if EmptyValue(data) {
        continue;
      }
      sortable := sortable[id := SortableEntry(data)];
    }
    assert sortable.Keys == Sortable(raw).Keys;
  }

  /** A column `get_column_count` leaves out: listed as hidden under a
      name that `array_filter` keeps. */
  predicate Hidden(hidden: seq<string>, column: string)
  {
    column in hidden && !EmptyText(Some(column))
  }

  function VisibleColumns(columns: map<string, string>, hidden: seq<string>): set<string>
  {
    set c | c in columns && !Hidden(hidden, c)
  }

  function HiddenColumns(columns: map<string, string>, hidden: seq<string>): set<string>
  {
    set c | c in columns && Hidden(hidden, c)
  }

  lemma ColumnsSplit(columns: map<string, string>, hidden: seq<string>)
    ensures |columns| == |VisibleColumns(columns, hidden)| + |HiddenColumns(columns, hidden)|
  {
    var visible, gone := VisibleColumns(columns, hidden), HiddenColumns(columns, hidden);
    assert columns.Keys == visible + gone;
    assert visible * gone == {};
  }

  /** `get_column_count`: the number of columns less those hidden. */
  function ColumnCount(columns: map<string, string>, hidden: seq<string>): (r: int)
    ensures r == |VisibleColumns(columns, hidden)|
    ensures 0 <= r <= |columns|
  {
    ColumnsSplit(columns, hidden);
    |columns| - |HiddenColumns(columns, hidden)|
  }

  /** The columns, the hidden column names and the normalised sortable
      columns, as `get_column_info` caches them. */
  datatype ColumnInfo = ColumnInfo(columns: map<string, string>, hidden: seq<string>, sortable: map<string, Value>)

  // ---------------------------------------------------------------------
  // Sorting links
  // ---------------------------------------------------------------------

  /** The request's `orderby`, or `''`. */
  function CurrentOrderby(orderby: Option<string>): string
  {
    if orderby.Some? then orderby.value else ""
  }

  /** The request's order: `desc` only when the request says exactly
      that. */
  function CurrentOrder(order: Option<string>): (r: string)
    ensures r == "asc" || r == "desc"
    ensures r == "desc" <==> order == Some("desc")
  {
    if order == Some("desc") then "desc" else "asc"
  }

  /** The order a column header links to and the classes it carries. */
  datatype SortLink = SortLink(order: string, classes: seq<string>)

  /** The sort link of a sortable column whose entry is `entry`. */
  function ColumnSortLink(currentOrderby: string, currentOrder: string, entry: Value): (r: SortLink)
    ensures r.order == "asc" || r.order == "desc"
    ensures |r.classes| == 2
    ensures LooseEqualsText(currentOrderby, PropOrNull(ToArray(entry), "0")) ==>
      r.classes == ["sorted", currentOrder] && (currentOrder == "asc" <==> r.order == "desc")
    ensures !LooseEqualsText(currentOrderby, PropOrNull(ToArray(entry), "0")) ==>
      r.classes[0] == "sortable" && r.classes[1] == (if r.order == "desc" then "asc" else "desc")
      && (r.order == "desc" <==> !EmptyValue(PropOrNull(ToArray(entry), "1")))
  {
    var data := ToArray(entry);
    var orderby, descFirst := PropOrNull(data, "0"), !EmptyValue(PropOrNull(data, "1"));
    if LooseEqualsText(currentOrderby, orderby) then
      SortLink(if "asc" == currentOrder then "desc" else "asc", ["sorted", currentOrder])
    else
      SortLink(if descFirst then "desc" else "asc", ["sortable", if descFirst then "asc" else "desc"])
  }

  /** Following the link of the sorted column and then the link that page
      shows for it returns to the order it started from. */
  lemma SortToggleReturns(orderby: Option<string>, order: Option<string>, entry: Value)
    requires LooseEqualsText(CurrentOrderby(orderby), PropOrNull(ToArray(entry), "0"))
    ensures var first := ColumnSortLink(CurrentOrderby(orderby), CurrentOrder(order), entry);
      ColumnSortLink(CurrentOrderby(orderby), first.order, entry).order == CurrentOrder(order)
  {
  }

  /** The class `single_row` adds to a row that is to be shaded. */
  const Alternate: string := " class=\"alternate\""

  /** The row class after one more row. */
  function NextRowClass(rowClass: string): string
  {
    if rowClass == "" then Alternate else ""
  }

  /** The row class after `k` more rows. */
  function RowClassAfter(start: string, k: nat): string
  {
    if k == 0 then start else NextRowClass(RowClassAfter(start, k - 1))
  }

  /** Starting from the unshaded state, odd rows are shaded and even rows
      are not. */
  lemma {:induction false} RowClassesAlternate(k: nat)
    ensures RowClassAfter("", k) == if k % 2 == 1 then Alternate else ""
  {
    if k > 0 {
      RowClassesAlternate(k - 1);
    }
  }

  // ---------------------------------------------------------------------
  // The table
  // ---------------------------------------------------------------------

  /** A list table. `actions` and `columnHeaders` are caches that start
      unset; `rowClass` is the row class `single_row` keeps between
      calls. */
  class ListTable {
    var items: seq<Value>
    var paginationArgs: map<string, int>
    var actions: Option<seq<(string, string)>>
    var columnHeaders: Option<ColumnInfo>
    var rowClass: string

    /** A table whose items `prepare_items` has set. */
    constructor (items: seq<Value>)
      ensures this.items == items && paginationArgs == map[]
      ensures actions == None && columnHeaders == None && rowClass == ""
    {
      this.items := items;
      paginationArgs := map[];
      actions := None;
      columnHeaders := None;
      rowClass := "";
    }

    method SetPaginationArgs(args: map<string, int>)
      modifies this`paginationArgs
      ensures paginationArgs == PaginationArgs(args)
    {
      paginationArgs := PaginationArgs(args);
    }

    function GetPagenum(paged: Option<int>): (r: int)
      reads this
      ensures r == PageNum(paginationArgs, paged)
      ensures r >= 1
      ensures "total_pages" in paginationArgs ==> r <= Max(1, paginationArgs["total_pages"])
    {
      PageNum(paginationArgs, paged)
    }

    /** `get_pagination_arg`: the page number for `'page'`, otherwise the
        stored argument or null. */
    function GetPaginationArg(key: string, paged: Option<int>): (r: Value)
      reads this
      ensures key == "page" ==> r == Int(GetPagenum(paged)) && r.i >= 1
      ensures key != "page" ==> (r == Null <==> key !in paginationArgs)
      ensures key != "page" && key in paginationArgs ==> r == Int(paginationArgs[key])
    {
      if key == "page" then Int(GetPagenum(paged))
      else if key in paginationArgs then Int(paginationArgs[key])
      else Null
    }

    function HasItems(): (r: bool)
      reads this
      ensures r <==> |items| > 0
    {
      items != []
    }

    /** `bulk_actions`: the first call fetches and caches the actions and
        names its controls without a suffix; later calls use the cache and
        the suffix `'2'`. `shown` tells whether anything is printed. */
    method BulkActions(defined: seq<(string, string)>) returns (two: string, shown: bool)
      modifies this`actions
      ensures old(actions).None? ==> actions == Some(defined) && two == ""
      ensures old(actions).Some? ==> actions == old(actions) && two == "2"
      ensures shown <==> actions.Some? && actions.value != []
    {
      if actions.None? {
        actions := Some(defined);
        two := "";
      } else {
        two := "2";
      }
      shown := actions.value != [];
    }

    /** `get_column_info`: computed on the first call from the screen's
        columns, hidden columns and declared sortable columns, then
        cached. */
    method GetColumnInfo(columns: map<string, string>, hidden: seq<string>, rawSortable: map<string, Value>)
      returns (info: ColumnInfo)
      modifies this`columnHeaders
      ensures old(columnHeaders).Some? ==> columnHeaders == old(columnHeaders)
      ensures old(columnHeaders).None? ==>
        columnHeaders == Some(ColumnInfo(columns, hidden, Sortable(rawSortable)))
      ensures columnHeaders == Some(info)
    {
      if columnHeaders.Some? {
        return columnHeaders.value;
      }
      var sortable := NormaliseSortable(rawSortable);
      info := ColumnInfo(columns, hidden, sortable);
      columnHeaders := Some(info);
    }

    method GetColumnCount(columns: map<string, string>, hidden: seq<string>, rawSortable: map<string, Value>)
      returns (count: int)
      modifies this`columnHeaders
      ensures old(columnHeaders).Some? ==> columnHeaders == old(columnHeaders)
      ensures old(columnHeaders).None? ==>
        columnHeaders == Some(ColumnInfo(columns, hidden, Sortable(rawSortable)))
      ensures columnHeaders.Some?
      ensures count == |VisibleColumns(columnHeaders.value.columns, columnHeaders.value.hidden)|
    {
      var info := GetColumnInfo(columns, hidden, rawSortable);
      count := ColumnCount(info.columns, info.hidden);
    }

    /** `single_row`: toggles the row class and returns the one this row
        carries. */
    method SingleRow() returns (cls: string)
      modifies this`rowClass
      ensures rowClass == NextRowClass(old(rowClass)) && cls == rowClass
    {
      rowClass := if rowClass == "" then Alternate else "";
      cls := rowClass;
    }

    /** `display_rows`: one row per item, in order; returns the class of
        each row. */
    method DisplayRows() returns (classes: seq<string>)
      modifies this`rowClass
      ensures |classes| == |items|
      ensures forall i :: 0 <= i < |items| ==> classes[i] == RowClassAfter(old(rowClass), i + 1)
      ensures rowClass == RowClassAfter(old(rowClass), |items|)
    {
      classes := [];
      for i := 0 to |items|
        invariant |classes| == i
        invariant forall j :: 0 <= j < i ==> classes[j] == RowClassAfter(old(rowClass), j + 1)
        invariant rowClass == RowClassAfter(old(rowClass), i)
      {
        var cls := SingleRow();
        classes := classes + [cls];
      }
    }
  }
}
