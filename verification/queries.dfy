/** The fluent query builder (`Query` in src/Query.php): it accumulates
    predicates, a search term, sorting and paging, and composes one SQL
    string from them. Values are escaped by `esc_sql`, an uninterpreted
    collaborator passed in as `esc`. */
module Queries {
  import opened Php

  /** The comparison of a single-value predicate, one per builder method:
      `where`, `where_not`, `where_like`, `where_not_like`, `where_lt`,
      `where_lte`, `where_gt`, `where_gte`. */
  datatype Op = Eq | NotEq | Like | NotLike | Lt | Lte | Gt | Gte

  function OpText(op: Op): string
  {
    match op
    case Eq => "="
    case NotEq => "!="
    case Like => "LIKE"
    case NotLike => "NOT LIKE"
    case Lt => "<"
    case Lte => "<="
    case Gt => ">"
    case Gte => ">="
  }

  /** One entry of the builder's `$where` list. `Any` and `All` carry the
      column-to-value array of `where_any` / `where_all` in iteration
      order. */
  datatype Predicate =
    | Compare(op: Op, column: string, value: string)
    | In(column: string, values: seq<string>)
    | NotIn(column: string, values: seq<string>)
    | Any(pairs: seq<(string, string)>)
    | All(pairs: seq<(string, string)>)

  /** A snapshot of every field of a builder. */
  datatype QueryState = QueryState(
    limit: int,
    offset: int,
    where: seq<Predicate>,
    sortBy: string,
    order: string,
    searchTerm: Option<string>,
    searchFields: seq<string>,
    primaryKey: Option<string>)

  /** The field defaults of a new builder. */
  const Initial := QueryState(0, 0, [], "id", "ASC", None, [], None)

  // ---------------------------------------------------------------------
  // The text pieces that the composition emits.

  /** `` `f` LIKE "%term%" ``: the term is matched anywhere in the field. */
  function LikeTerm(field: string, term: string, esc: string -> string): string
  {
    "`" + field + "` LIKE \"%" + esc(term) + "%\""
  }

  /** `` `c` = "v" ``: one pair of a `where_any` / `where_all` array. */
  function EqTerm(pair: (string, string), esc: string -> string): string
  {
    "`" + pair.0 + "` = \"" + esc(pair.1) + "\""
  }

  /** `"v"`: one value of an `IN` list. */
  function Quoted(value: string, esc: string -> string): string
  {
    "\"" + esc(value) + "\""
  }

  function LikeTerms(fields: seq<string>, term: string, esc: string -> string): (r: seq<string>)
    ensures |r| == |fields|
    ensures forall i :: 0 <= i < |fields| ==> r[i] == LikeTerm(fields[i], term, esc)
  {
    if fields == [] then []
    else LikeTerms(fields[..|fields| - 1], term, esc) + [LikeTerm(fields[|fields| - 1], term, esc)]
  }

  function EqTerms(pairs: seq<(string, string)>, esc: string -> string): (r: seq<string>)
    ensures |r| == |pairs|
    ensures forall i :: 0 <= i < |pairs| ==> r[i] == EqTerm(pairs[i], esc)
  {
    if pairs == [] then []
    else EqTerms(pairs[..|pairs| - 1], esc) + [EqTerm(pairs[|pairs| - 1], esc)]
  }

  function QuotedValues(values: seq<string>, esc: string -> string): (r: seq<string>)
    ensures |r| == |values|
    ensures forall i :: 0 <= i < |values| ==> r[i] == Quoted(values[i], esc)
  {
    if values == [] then []
    else QuotedValues(values[..|values| - 1], esc) + [Quoted(values[|values| - 1], esc)]
  }

  /** What the search step appends: nothing for a PHP-empty term;
      otherwise ` AND (`, each LIKE term followed by `' OR '`, the last
      four characters trimmed, then `)`. */
  function SearchFragment(st: QueryState, esc: string -> string): (r: string)
    ensures r == "" <==> EmptyText(st.searchTerm)
  {
    if EmptyText(st.searchTerm) then ""
    else DropLast(" AND " + "(" + Terminated(LikeTerms(st.searchFields, st.searchTerm.value, esc), " OR "), 4) + ")"
  }

  /** `` `c` op "v" ``: a single-value comparison. */
  function CompareText(op: Op, c: string, v: string, esc: string -> string): string
  {
    "`" + c + "` " + OpText(op) + " \"" + esc(v) + "\""
  }

  /** `` `c` IN `` or `` `c` NOT IN ``, up to the value list. */
  function ListHead(keyword: string, c: string): string
  {
    "`" + c + "` " + keyword + " "
  }

  /** What an `IN` or `NOT IN` predicate appends: the quoted values each
      followed by a comma, the last character trimmed, then `)`. */
  function ListText(keyword: string, c: string, vs: seq<string>, esc: string -> string): string
  {
    DropLast(" AND " + ListHead(keyword, c) + "(" + Terminated(QuotedValues(vs, esc), ","), 1) + ")"
  }

  /** What a `where_any` (joiner `' OR '`) or `where_all` (joiner
      `' AND '`) group appends: the equalities each followed by the joiner,
      the last five characters trimmed, then `)`. */
  function GroupText(joiner: string, ps: seq<(string, string)>, esc: string -> string): string
  {
    DropLast(" AND " + "(" + Terminated(EqTerms(ps, esc), joiner), 5) + ")"
  }

  /** What one predicate appends to the WHERE text, including the `substr`
      trimming that follows its loop. */
  function Fragment(p: Predicate, esc: string -> string): string
  {
    match p
    case Compare(op, c, v) => " AND " + CompareText(op, c, v, esc)
    case In(c, vs) => ListText("IN", c, vs, esc)
    case NotIn(c, vs) => ListText("NOT IN", c, vs, esc)
    case Any(ps) => GroupText(" OR ", ps, esc)
    case All(ps) => GroupText(" AND ", ps, esc)
  }

  /** What the predicate loop appends, in insertion order. */
  function Fragments(ps: seq<Predicate>, esc: string -> string): string
  {
    ConcatMap(ps, p => Fragment(p, esc))
  }

  /** The WHERE text before its first five characters are replaced. */
  function WhereBody(st: QueryState, esc: string -> string): string
  {
    SearchFragment(st, esc) + Fragments(st.where, esc)
  }

  function WhereClause(st: QueryState, esc: string -> string): string
  {
    var w := WhereBody(st, esc);
    if EmptyText(Some(w)) then "" else " WHERE " + DropFirst(w, 5)
  }

  /** A sort column holding both parentheses is taken to be a function
      call and is emitted raw; any other is backtick-quoted. */
  function OrderClause(sortBy: string, order: string): string
  {
    if '(' in sortBy && ')' in sortBy then " ORDER BY " + sortBy + " " + order
    else " ORDER BY `" + sortBy + "` " + order
  }

  function LimitClause(limit: int): string
  {
    if limit > 0 then " LIMIT " + NatToString(limit) else ""
  }

  function OffsetClause(offset: int): string
  {
    if offset > 0 then " OFFSET " + NatToString(offset) else ""
  }

  /** The SQL text `compose_query` returns for a builder state (the
      `wporm_query` / `wporm_count_query` filters are the identity). */
  function Compose(st: QueryState, table: string, onlyCount: bool, esc: string -> string): string
  {
    if onlyCount then "SELECT COUNT(*) FROM `" + table + "`" + WhereClause(st, esc)
    else "SELECT * FROM `" + table + "`" + WhereClause(st, esc) + OrderClause(st.sortBy, st.order)
         + LimitClause(st.limit) + OffsetClause(st.offset)
  }

  // ---------------------------------------------------------------------
  // A reference reading of the WHERE clause: conditions joined by AND.

  /** `where_any` and `where_all` with an empty array trim into the text
      before them; every other predicate renders as one conjunct. */
  predicate WellFormed(p: Predicate)
  {
    match p
    case Any(ps) => ps != []
    case All(ps) => ps != []
    case _ => true
  }

  /** A search with no searchable fields trims into its own opening. */
  predicate SearchWellFormed(st: QueryState)
  {
    EmptyText(st.searchTerm) || st.searchFields != []
  }

  /** An `IN` list: the values quoted and comma-separated in parentheses;
      an empty list loses its opening parenthesis. */
  function ValueList(vs: seq<string>, esc: string -> string): string
  {
    if vs == [] then ")" else "(" + Join(QuotedValues(vs, esc), ",") + ")"
  }

  function ListCondition(keyword: string, c: string, vs: seq<string>, esc: string -> string): string
  {
    ListHead(keyword, c) + ValueList(vs, esc)
  }

  /** One conjunct of the WHERE clause. In a `where_any` group the final
      equality loses its closing quote. */
  function Condition(p: Predicate, esc: string -> string): string
  {
    match p
    case Compare(op, c, v) => CompareText(op, c, v, esc)
    case In(c, vs) => ListCondition("IN", c, vs, esc)
    case NotIn(c, vs) => ListCondition("NOT IN", c, vs, esc)
    case Any(ps) => "(" + DropLast(Join(EqTerms(ps, esc), " OR "), 1) + ")"
    case All(ps) => "(" + Join(EqTerms(ps, esc), " AND ") + ")"
  }

  function ConditionsOf(ps: seq<Predicate>, esc: string -> string): (r: seq<string>)
    ensures |r| == |ps|
  {
    if ps == [] then [] else ConditionsOf(ps[..|ps| - 1], esc) + [Condition(ps[|ps| - 1], esc)]
  }

  function SearchCondition(st: QueryState, esc: string -> string): string
    requires !EmptyText(st.searchTerm)
  {
    "(" + Join(LikeTerms(st.searchFields, st.searchTerm.value, esc), " OR ") + ")"
  }

  /** The conjuncts in emission order: the search group first, then the
      predicates in the order they were added. */
  function Conditions(st: QueryState, esc: string -> string): seq<string>
  {
    (if EmptyText(st.searchTerm) then [] else [SearchCondition(st, esc)]) + ConditionsOf(st.where, esc)
  }

  lemma JoinLastLength(xs: seq<string>, sep: string)
    requires xs != []
    ensures |Join(xs, sep)| >= |xs[|xs| - 1]|
  {
  }

  /** A non-empty group is ` AND ` and the joined equalities in
      parentheses, less the `k` characters that the trim takes beyond the
      `5 - k` characters of the joiner. */
  lemma GroupFragment(joiner: string, ps: seq<(string, string)>, esc: string -> string, k: nat)
    requires ps != [] && |joiner| + k == 5 && k <= 1
    ensures GroupText(joiner, ps, esc) == " AND " + ("(" + DropLast(Join(EqTerms(ps, esc), joiner), k) + ")")
  {
    var eqs := EqTerms(ps, esc);
    assert eqs[|eqs| - 1] == EqTerm(ps[|ps| - 1], esc);
    JoinLastLength(eqs, joiner);
    TrimTerminated(" AND " + "(", eqs, joiner, k);
    var d := DropLast(Join(eqs, joiner), k);
    Assoc(" AND ", "(", d);
    Assoc(" AND ", "(" + d, ")");
  }

  /** Every well-formed predicate appends `' AND '` followed by its
      condition. */
  lemma FragmentIsAndCondition(p: Predicate, esc: string -> string)
    requires WellFormed(p)
    ensures Fragment(p, esc) == " AND " + Condition(p, esc)
  {
    match p
    case Compare(op, c, v) =>
    case In(c, vs) =>
      ListFragment("IN", c, vs, esc);
    case NotIn(c, vs) =>
      ListFragment("NOT IN", c, vs, esc);
    case Any(ps) =>
      GroupFragment(" OR ", ps, esc, 1);
    case All(ps) =>
      GroupFragment(" AND ", ps, esc, 0);
  }

  /** An `IN` list renders as ` AND ` and the keyword before the value
      list; an empty list keeps only the closing parenthesis. */
  lemma ListFragment(keyword: string, c: string, vs: seq<string>, esc: string -> string)
    ensures ListText(keyword, c, vs, esc) == " AND " + ListCondition(keyword, c, vs, esc)
  {
    var head := " AND " + ListHead(keyword, c);
    var qs := QuotedValues(vs, esc);
    if vs == [] {
      assert head + "(" + Terminated(qs, ",") == head + "(";
      assert DropLast(head + "(", 1) == head;
      Assoc(" AND ", ListHead(keyword, c), ")");
    } else {
      var j := Join(qs, ",");
      TrimTerminated(head + "(", qs, ",", 0);
      assert DropLast(j, 0) == j;
      assert ListText(keyword, c, vs, esc) == head + "(" + j + ")";
      assert ValueList(vs, esc) == "(" + j + ")";
      Assoc(" AND ", ListHead(keyword, c), "(" + j + ")");
      assert head + "(" + j + ")" == head + ("(" + j + ")");
    }
  }

  /** A search over at least one field appends `' AND '` followed by the
      OR-group of LIKE terms. */
  lemma SearchFragmentIsAndCondition(st: QueryState, esc: string -> string)
    requires !EmptyText(st.searchTerm) && st.searchFields != []
    ensures SearchFragment(st, esc) == " AND " + SearchCondition(st, esc)
  {
    var likes := LikeTerms(st.searchFields, st.searchTerm.value, esc);
    var j := Join(likes, " OR ");
    TrimTerminated(" AND " + "(", likes, " OR ", 0);
    assert DropLast(j, 0) == j;
    Assoc(" AND ", "(", j);
    Assoc(" AND ", "(" + j, ")");
  }

  lemma {:induction false} FragmentsArePrefixed(ps: seq<Predicate>, esc: string -> string)
    requires forall i :: 0 <= i < |ps| ==> WellFormed(ps[i])
    ensures Fragments(ps, esc) == Prefixed(ConditionsOf(ps, esc), " AND ")
  {
    if ps != [] {
      var init := ps[..|ps| - 1];
      var last := ps[|ps| - 1];
      assert ps == init + [last];
      FragmentsArePrefixed(init, esc);
      FragmentsSnoc(init, last, esc);
      FragmentIsAndCondition(last, esc);
      PrefixedSnoc(ConditionsOf(init, esc), Condition(last, esc), " AND ");
    }
  }

  /** The WHERE text before trimming is every conjunct preceded by
      `' AND '`. */
  lemma WhereBodyIsPrefixed(st: QueryState, esc: string -> string)
    requires SearchWellFormed(st)
    requires forall i :: 0 <= i < |st.where| ==> WellFormed(st.where[i])
    ensures WhereBody(st, esc) == Prefixed(Conditions(st, esc), " AND ")
  {
    if EmptyText(st.searchTerm) {
      FragmentsArePrefixed(st.where, esc);
      assert Conditions(st, esc) == ConditionsOf(st.where, esc);
      assert WhereBody(st, esc) == "" + Fragments(st.where, esc);
    } else {
      SearchedBodyIsPrefixed(st, esc);
    }
  }

  lemma SearchedBodyIsPrefixed(st: QueryState, esc: string -> string)
    requires !EmptyText(st.searchTerm) && st.searchFields != []
    requires forall i :: 0 <= i < |st.where| ==> WellFormed(st.where[i])
    ensures WhereBody(st, esc) == Prefixed(Conditions(st, esc), " AND ")
  {
    var rest := ConditionsOf(st.where, esc);
    var sc := SearchCondition(st, esc);
    FragmentsArePrefixed(st.where, esc);
    SearchFragmentIsAndCondition(st, esc);
    assert WhereBody(st, esc) == SearchFragment(st, esc) + Fragments(st.where, esc);
    assert [] + [sc] == [sc];
    PrefixedSnoc([], sc, " AND ");
    assert Prefixed([sc], " AND ") == " AND " + sc;
    PrefixedAppend([sc], rest, " AND ");
    assert Conditions(st, esc) == [sc] + rest;
  }

  /** With a well-formed search and well-formed predicates, the WHERE clause
      is absent exactly when there are no conjuncts, and otherwise is
      `' WHERE '` followed by the conjuncts joined by `' AND '`, search
      first, then predicates in insertion order. */
  lemma WhereClauseJoinsConditions(st: QueryState, esc: string -> string)
    requires SearchWellFormed(st)
    requires forall i :: 0 <= i < |st.where| ==> WellFormed(st.where[i])
    ensures var cs := Conditions(st, esc);
            WhereClause(st, esc) == if cs == [] then "" else " WHERE " + Join(cs, " AND ")
  {
    var cs := Conditions(st, esc);
    WhereBodyIsPrefixed(st, esc);
    if cs != [] {
      var w := WhereBody(st, esc);
      PrefixedIsSepThenJoin(cs, " AND ");
      assert w == " AND " + Join(cs, " AND ");
      assert w[0] == ' ';
      assert DropFirst(w, 5) == Join(cs, " AND ");
    }
  }

  /** The `where_any` quirk: trimming five characters after a four-character
      `' OR '` also removes the closing quote of the last value. */
  lemma AnyDropsLastClosingQuote(ps: seq<(string, string)>, esc: string -> string)
    requires ps != []
    ensures var init := ps[..|ps| - 1];
            var (c, v) := ps[|ps| - 1];
            GroupText(" OR ", ps, esc)
            == " AND " + "(" + Terminated(EqTerms(init, esc), " OR ") + ("`" + c + "` = \"" + esc(v)) + ")"
  {
    var init := ps[..|ps| - 1];
    var (c, v) := ps[|ps| - 1];
    var pre := " AND " + "(" + Terminated(EqTerms(init, esc), " OR ");
    var body := "`" + c + "` = \"" + esc(v);
    var last := body + "\"";
    assert EqTerms(ps, esc) == EqTerms(init, esc) + [last];
    TerminatedSnoc(EqTerms(init, esc), last, " OR ");
    Assoc(" AND " + "(", Terminated(EqTerms(init, esc), " OR ") + last, " OR ");
    Assoc(" AND " + "(", Terminated(EqTerms(init, esc), " OR "), last);
    DropLastPastSuffix(pre + last, " OR ", 1);
    DropLastAppend(pre, last, 1);
    assert DropLast(last, 1) == body;
  }

  /** The degenerate fragments the code emits without checking its input:
      an empty `IN` list renders `IN )`, and an empty `where_any` or
      `where_all` array trims back into its own ` AND (` to leave ` )`. */
  lemma DegenerateFragments(c: string, esc: string -> string)
    ensures Fragment(In(c, []), esc) == " AND " + ListHead("IN", c) + ")"
    ensures Fragment(NotIn(c, []), esc) == " AND " + ListHead("NOT IN", c) + ")"
    ensures Fragment(Any([]), esc) == " )"
    ensures Fragment(All([]), esc) == " )"
  {
    ListFragment("IN", c, [], esc);
    ListFragment("NOT IN", c, [], esc);
    Assoc(" AND ", ListHead("IN", c), ")");
    Assoc(" AND ", ListHead("NOT IN", c), ")");
    assert " AND " + "(" + Terminated(EqTerms([], esc), " OR ") == " AND (";
    assert " AND " + "(" + Terminated(EqTerms([], esc), " AND ") == " AND (";
    assert DropLast(" AND (", 5) == " ";
  }

  /** A non-empty search over no fields trims ` AND (` to ` A)`, whatever
      predicates follow. */
  lemma SearchWithoutFields(st: QueryState, esc: string -> string)
    requires !EmptyText(st.searchTerm) && st.searchFields == []
    ensures SearchFragment(st, esc) == " A)"
  {
    assert " AND " + "(" + Terminated(LikeTerms([], st.searchTerm.value, esc), " OR ") == " AND (";
    assert DropLast(" AND (", 4) == " A";
  }

  /** With neither searchable fields nor predicates, such a search leaves
      a bare ` WHERE `. */
  lemma SearchWithoutFieldsOrPredicates(st: QueryState, esc: string -> string)
    requires !EmptyText(st.searchTerm) && st.searchFields == [] && st.where == []
    ensures WhereClause(st, esc) == " WHERE "
  {
    SearchWithoutFields(st, esc);
    assert WhereBody(st, esc) == " A)";
  }

  lemma FragmentsSnoc(ps: seq<Predicate>, p: Predicate, esc: string -> string)
    ensures Fragments(ps + [p], esc) == Fragments(ps, esc) + Fragment(p, esc)
  {
    ConcatMapSnoc(ps, p, q => Fragment(q, esc));
  }

  /** Predicates added later render after the earlier ones, which are left
      as they were. */
  lemma FragmentsAppend(xs: seq<Predicate>, ys: seq<Predicate>, esc: string -> string)
    ensures Fragments(xs + ys, esc) == Fragments(xs, esc) + Fragments(ys, esc)
  {
    ConcatMapAppend(xs, ys, p => Fragment(p, esc));
  }

  /** The builder's default state, after `set_searchable_fields` and
      `set_primary_key`, composes to a full-table query ordered by the
      primary key ascending. */
  lemma DefaultQuery(table: string, key: string, fields: seq<string>, esc: string -> string)
    requires !('(' in key && ')' in key)
    ensures Compose(Initial.(searchFields := fields, sortBy := key, primaryKey := Some(key)), table, false, esc)
            == "SELECT * FROM `" + table + "` ORDER BY `" + key + "` ASC"
  {
    var st := Initial.(searchFields := fields, sortBy := key, primaryKey := Some(key));
    assert WhereBody(st, esc) == "";
  }

  /** The count query carries the WHERE clause only: it does not depend on
      the sort column, the direction, the limit or the offset. */
  lemma CountIgnoresOrderAndPaging(st1: QueryState, st2: QueryState, table: string, esc: string -> string)
    requires st1.where == st2.where && st1.searchTerm == st2.searchTerm && st1.searchFields == st2.searchFields
    ensures Compose(st1, table, true, esc) == Compose(st2, table, true, esc)
  {
  }

  /** A LIMIT (or OFFSET) clause is emitted exactly when the value is
      positive, and its digits read back as that value. */
  lemma PagingClauses(n: int)
    ensures LimitClause(n) == "" <==> n <= 0
    ensures OffsetClause(n) == "" <==> n <= 0
    ensures n > 0 ==> LimitClause(n)[..7] == " LIMIT " && ParseNat(LimitClause(n)[7..]) == n
    ensures n > 0 ==> OffsetClause(n)[..8] == " OFFSET " && ParseNat(OffsetClause(n)[8..]) == n
  {
    if n > 0 {
      NatToStringRoundTrip(n);
      assert LimitClause(n)[7..] == NatToString(n);
      assert OffsetClause(n)[8..] == NatToString(n);
    }
  }

  // ---------------------------------------------------------------------
  // The loops of `compose_query`.

  method AppendLikes(s: string, fields: seq<string>, term: string, esc: string -> string) returns (r: string)
    ensures r == s + Terminated(LikeTerms(fields, term, esc), " OR ")
  {
    r := s;
    var i := 0;
    while i < |fields|
      invariant 0 <= i <= |fields|
      invariant r == s + Terminated(LikeTerms(fields[..i], term, esc), " OR ")
    {
      var t := LikeTerm(fields[i], term, esc);
      assert fields[..i + 1] == fields[..i] + [fields[i]];
      var done := LikeTerms(fields[..i], term, esc);
      assert LikeTerms(fields[..i + 1], term, esc) == done + [t];
      TerminatedSnoc(done, t, " OR ");
      Assoc(s, Terminated(done, " OR "), t);
      Assoc(s, Terminated(done, " OR ") + t, " OR ");
      r := r + t + " OR ";
      i := i + 1;
    }
    assert fields[..|fields|] == fields;
  }

  method AppendQuoted(s: string, values: seq<string>, esc: string -> string) returns (r: string)
    ensures r == s + Terminated(QuotedValues(values, esc), ",")
  {
    r := s;
    var i := 0;
    while i < |values|
      invariant 0 <= i <= |values|
      invariant r == s + Terminated(QuotedValues(values[..i], esc), ",")
    {
      var t := Quoted(values[i], esc);
      assert values[..i + 1] == values[..i] + [values[i]];
      var done := QuotedValues(values[..i], esc);
      assert QuotedValues(values[..i + 1], esc) == done + [t];
      TerminatedSnoc(done, t, ",");
      Assoc(s, Terminated(done, ","), t);
      Assoc(s, Terminated(done, ",") + t, ",");
      r := r + t + ",";
      i := i + 1;
    }
    assert values[..|values|] == values;
  }

  method AppendEqualities(s: string, pairs: seq<(string, string)>, joiner: string, esc: string -> string)
    returns (r: string)
    ensures r == s + Terminated(EqTerms(pairs, esc), joiner)
  {
    r := s;
    var i := 0;
    while i < |pairs|
      invariant 0 <= i <= |pairs|
      invariant r == s + Terminated(EqTerms(pairs[..i], esc), joiner)
    {
      EqualitiesStep(s, pairs, i, joiner, esc);
      r := r + EqTerm(pairs[i], esc) + joiner;
      i := i + 1;
    }
    assert pairs[..|pairs|] == pairs;
  }

  lemma EqualitiesStep(s: string, pairs: seq<(string, string)>, i: int, joiner: string, esc: string -> string)
    requires 0 <= i < |pairs|
    ensures s + Terminated(EqTerms(pairs[..i], esc), joiner) + EqTerm(pairs[i], esc) + joiner
            == s + Terminated(EqTerms(pairs[..i + 1], esc), joiner)
  {
    var t := EqTerm(pairs[i], esc);
    assert pairs[..i + 1] == pairs[..i] + [pairs[i]];
    var done := EqTerms(pairs[..i], esc);
    assert EqTerms(pairs[..i + 1], esc) == done + [t];
    TerminatedSnoc(done, t, joiner);
    Assoc(s, Terminated(done, joiner), t);
    Assoc(s, Terminated(done, joiner) + t, joiner);
  }

  /** The `IN` / `NOT IN` branch of the predicate loop. */
  method AppendList(w: string, keyword: string, c: string, vs: seq<string>, esc: string -> string)
    returns (r: string)
    ensures r == w + ListText(keyword, c, vs, esc)
  {
    var open := " AND " + ListHead(keyword, c) + "(";
    r := AppendQuoted(w + open, vs, esc);
    Assoc(w, open, Terminated(QuotedValues(vs, esc), ","));
    r := TrimClose(w, open + Terminated(QuotedValues(vs, esc), ","), r, 1);
  }

  /** The `where_any` / `where_all` branch of the predicate loop. */
  method AppendGroup(w: string, joiner: string, ps: seq<(string, string)>, esc: string -> string)
    returns (r: string)
    ensures r == w + GroupText(joiner, ps, esc)
  {
    var open := " AND " + "(";
    r := AppendEqualities(w + open, ps, joiner, esc);
    Assoc(w, open, Terminated(EqTerms(ps, esc), joiner));
    r := TrimClose(w, open + Terminated(EqTerms(ps, esc), joiner), r, 5);
  }

  /** One pass of the predicate loop: append the predicate's text, then
      trim the whole accumulated string as the code does. */
  method AppendFragment(w: string, p: Predicate, esc: string -> string) returns (r: string)
    ensures r == w + Fragment(p, esc)
  {
    match p
    case Compare(op, c, v) =>
      r := w + " AND " + CompareText(op, c, v, esc);
    case In(c, vs) =>
      r := AppendList(w, "IN", c, vs, esc);
    case NotIn(c, vs) =>
      r := AppendList(w, "NOT IN", c, vs, esc);
    case Any(ps) =>
      r := AppendGroup(w, " OR ", ps, esc);
    case All(ps) =>
      r := AppendGroup(w, " AND ", ps, esc);
  }

  /** The search step of `compose_query`. */
  method AppendSearch(term: Option<string>, fields: seq<string>, esc: string -> string) returns (w: string)
    ensures w == SearchFragment(Initial.(searchTerm := term, searchFields := fields), esc)
  {
    w := "";
    if !EmptyText(term) {
      w := AppendLikes(" AND " + "(", fields, term.value, esc);
      w := DropLast(w, 4) + ")";
    }
  }

  /** The predicate loop of `compose_query`. */
  method AppendFragments(w0: string, ps: seq<Predicate>, esc: string -> string) returns (w: string)
    ensures w == w0 + Fragments(ps, esc)
  {
    w := w0;
    var j := 0;
    while j < |ps|
      invariant 0 <= j <= |ps|
      invariant w == w0 + Fragments(ps[..j], esc)
    {
      var next := AppendFragment(w, ps[j], esc);
      FragmentsStep(w0, ps, j, esc);
      w, j := next, j + 1;
    }
    assert ps[..|ps|] == ps;
  }

  lemma FragmentsStep(w0: string, ps: seq<Predicate>, j: int, esc: string -> string)
    requires 0 <= j < |ps|
    ensures w0 + Fragments(ps[..j], esc) + Fragment(ps[j], esc) == w0 + Fragments(ps[..j + 1], esc)
  {
    assert ps[..j + 1] == ps[..j] + [ps[j]];
    FragmentsSnoc(ps[..j], ps[j], esc);
    Assoc(w0, Fragments(ps[..j], esc), Fragment(ps[j], esc));
  }

  /** `$where = substr($where, 0, -n) . ')'` on an accumulated string whose
      last piece is at least `n` long. */
  method TrimClose(w: string, piece: string, acc: string, n: nat) returns (r: string)
    requires acc == w + piece && |piece| >= n
    ensures r == w + (DropLast(piece, n) + ")")
  {
    DropLastAppend(w, piece, n);
    r := DropLast(acc, n) + ")";
  }

  // ---------------------------------------------------------------------
  // The builder object.

  class Query {
    /** The table of the model class the builder was created for. */
    const table: string
    var limit: int
    var offset: int
    var where: seq<Predicate>
    var sortBy: string
    var order: string
    var searchTerm: Option<string>
    var searchFields: seq<string>
    var primaryKey: Option<string>

    function State(): QueryState
      reads this
    {
      QueryState(limit, offset, where, sortBy, order, searchTerm, searchFields, primaryKey)
    }

    constructor (table: string)
      ensures this.table == table && State() == Initial
    {
      this.table := table;
      limit, offset, where := 0, 0, [];
      sortBy, order := "id", "ASC";
      searchTerm, searchFields, primaryKey := None, [], None;
    }

    method SetSearchableFields(fields: seq<string>)
      modifies this
      ensures State() == old(State()).(searchFields := fields)
    {
      searchFields := fields;
    }

    /** Also makes the key the sort column. */
    method SetPrimaryKey(key: string)
      modifies this
      ensures State() == old(State()).(primaryKey := Some(key), sortBy := key)
    {
      primaryKey := Some(key);
      sortBy := key;
    }

    /** `limit((int) $n)`: stored as given, negative values included. */
    method Limit(n: int) returns (self: Query)
      modifies this
      ensures self == this && State() == old(State()).(limit := n)
    {
      limit := n;
      self := this;
    }

    method Offset(n: int) returns (self: Query)
      modifies this
      ensures self == this && State() == old(State()).(offset := n)
    {
      offset := n;
      self := this;
    }

    method SortBy(column: string) returns (self: Query)
      modifies this
      ensures self == this && State() == old(State()).(sortBy := column)
    {
      sortBy := column;
      self := this;
    }

    method Order(direction: string) returns (self: Query)
      modifies this
      ensures self == this && State() == old(State()).(order := direction)
    {
      order := direction;
      self := this;
    }

    method Search(term: Option<string>) returns (self: Query)
      modifies this
      ensures self == this && State() == old(State()).(searchTerm := term)
    {
      searchTerm := term;
      self := this;
    }

    /** The single step behind every `where*` method: append one entry. */
    method AddPredicate(p: Predicate) returns (self: Query)
      modifies this
      ensures self == this && State() == old(State()).(where := old(where) + [p])
    {
      where := where + [p];
      self := this;
    }

    method Where(column: string, value: string) returns (self: Query)
      modifies this
      ensures self == this && State() == old(State()).(where := old(where) + [Compare(Eq, column, value)])
    {
      self := AddPredicate(Compare(Eq, column, value));
    }

    method WhereNot(column: string, value: string) returns (self: Query)
      modifies this
      ensures self == this && State() == old(State()).(where := old(where) + [Compare(NotEq, column, value)])
    {
      self := AddPredicate(Compare(NotEq, column, value));
    }

    method WhereLike(column: string, value: string) returns (self: Query)
      modifies this
      ensures self == this && State() == old(State()).(where := old(where) + [Compare(Like, column, value)])
    {
      self := AddPredicate(Compare(Like, column, value));
    }

    method WhereNotLike(column: string, value: string) returns (self: Query)
      modifies this
      ensures self == this && State() == old(State()).(where := old(where) + [Compare(NotLike, column, value)])
    {
      self := AddPredicate(Compare(NotLike, column, value));
    }

    method WhereLt(column: string, value: string) returns (self: Query)
      modifies this
      ensures self == this && State() == old(State()).(where := old(where) + [Compare(Lt, column, value)])
    {
      self := AddPredicate(Compare(Lt, column, value));
    }

    method WhereLte(column: string, value: string) returns (self: Query)
      modifies this
      ensures self == this && State() == old(State()).(where := old(where) + [Compare(Lte, column, value)])
    {
      self := AddPredicate(Compare(Lte, column, value));
    }

    method WhereGt(column: string, value: string) returns (self: Query)
      modifies this
      ensures self == this && State() == old(State()).(where := old(where) + [Compare(Gt, column, value)])
    {
      self := AddPredicate(Compare(Gt, column, value));
    }

    method WhereGte(column: string, value: string) returns (self: Query)
      modifies this
      ensures self == this && State() == old(State()).(where := old(where) + [Compare(Gte, column, value)])
    {
      self := AddPredicate(Compare(Gte, column, value));
    }

    method WhereIn(column: string, values: seq<string>) returns (self: Query)
      modifies this
      ensures self == this && State() == old(State()).(where := old(where) + [In(column, values)])
    {
      self := AddPredicate(In(column, values));
    }

    method WhereNotIn(column: string, values: seq<string>) returns (self: Query)
      modifies this
      ensures self == this && State() == old(State()).(where := old(where) + [NotIn(column, values)])
    {
      self := AddPredicate(NotIn(column, values));
    }

    method WhereAny(pairs: seq<(string, string)>) returns (self: Query)
      modifies this
      ensures self == this && State() == old(State()).(where := old(where) + [Any(pairs)])
    {
      self := AddPredicate(Any(pairs));
    }

    method WhereAll(pairs: seq<(string, string)>) returns (self: Query)
      modifies this
      ensures self == this && State() == old(State()).(where := old(where) + [All(pairs)])
    {
      self := AddPredicate(All(pairs));
    }

    /** `compose_query`: reads the fields only, so composing twice from the
        same state yields the same text. */
    method ComposeQuery(onlyCount: bool, esc: string -> string) returns (sql: string)
      ensures sql == Compose(State(), table, onlyCount, esc)
    {
      var w := AppendSearch(searchTerm, searchFields, esc);
      w := AppendFragments(w, where, esc);
      if !EmptyText(Some(w)) {
        w := " WHERE " + DropFirst(w, 5);
      }
      var orderSql := "";
      if '(' in sortBy && ')' in sortBy {
        orderSql := " ORDER BY " + sortBy + " " + order;
      } else {
        orderSql := " ORDER BY `" + sortBy + "` " + order;
      }
      var limitSql := "";
      if limit > 0 {
        limitSql := " LIMIT " + NatToString(limit);
      }
      var offsetSql := "";
      if offset > 0 {
        offsetSql := " OFFSET " + NatToString(offset);
      }
      if onlyCount {
        sql := "SELECT COUNT(*) FROM `" + table + "`" + w;
      } else {
        sql := "SELECT * FROM `" + table + "`" + w + orderSql + limitSql + offsetSql;
      }
    }
  }
}
