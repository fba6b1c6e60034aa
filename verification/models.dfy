/** The model layer: `BaseModel` and the WordPress models `Post`, `Page`,
    `Comment` and `User` built on it. A model object holds its declared
    properties (and, for the WordPress models, an in-memory metadata map),
    maps itself to a database row and back, and seeds query builders.
    The database handle and the WordPress helpers it calls are the
    collaborators gathered in `Runtime`; none of their behaviour is
    assumed beyond what their types say. */
module Models {
  import opened Php
  import Queries

  /** The model classes. `Custom` stands for an application's own subclass
      of `BaseModel` that keeps the base behaviour: its table, its declared
      properties and its searchable fields. */
  datatype Kind =
    | Post
    | Page
    | Comment
    | User
    | Custom(table: string, declared: set<string>, searchable: seq<string>)

  /** The table names `$wpdb` carries. */
  datatype Tables = Tables(
    posts: string, postmeta: string,
    comments: string, commentmeta: string,
    users: string, usermeta: string)

  /** One row of a metadata table as the constructor reads it. */
  datatype MetaRow = MetaRow(key: string, value: Value)

  /** The collaborators the model layer calls:
      `esc_sql`; WordPress's `is_serialized` and `unserialize` (together
      `maybe_unserialize`); `serialize`; `new DateTime($v)` as the moment it
      denotes and `DateTime::format('Y-m-d H:i:s')`; the table names; the
      rows `$wpdb->get_results` returns for a metadata SELECT; and the row
      `$wpdb->get_row(..., ARRAY_A)` returns for a SELECT, if any. */
  datatype Runtime = Runtime(
    escSql: string -> string,
    isSerialized: string -> bool,
    unserialize: string -> Value,
    serialize: map<string, Value> -> string,
    parseDate: Value -> int,
    formatDate: int -> string,
    tables: Tables,
    metaRows: string -> seq<MetaRow>,
    getRow: string -> Option<map<string, Value>>)

  /** A write issued through `$wpdb`. */
  datatype DbWrite =
    | Insert(table: string, row: map<string, Value>)
    | Update(table: string, row: map<string, Value>, where: map<string, Value>)
    | Delete(table: string, where: map<string, Value>)

  /** A call of `update_{scope}_meta` or `delete_{scope}_meta`. */
  datatype MetaWrite =
    | MetaUpdate(scope: string, owner: Value, key: string, value: Value)
    | MetaDelete(scope: string, owner: Value, key: string)

  // ---------------------------------------------------------------------
  // Per-class constants.

  /** `get_primary_key`: `BaseModel` answers `'id'`. */
  function PrimaryKey(kind: Kind): (pk: string)
    ensures kind.Custom? <==> pk == "id"
    ensures kind == Page ==> pk == "ID"
  {
    match kind
    case Post => "ID"
    case Page => "ID"
    case Comment => "comment_ID"
    case User => "ID"
    case Custom(_, _, _) => "id"
  }

  /** `get_searchable_fields`. */
  function SearchableFields(kind: Kind): (fields: seq<string>)
    ensures kind.Custom? ==> fields == kind.searchable
    ensures !kind.Custom? ==> |fields| > 0
    ensures kind == Page ==> fields == ["post_title", "post_content", "post_excerpt"]
  {
    match kind
    case Post => ["post_title", "post_content", "post_excerpt"]
    case Page => ["post_title", "post_content", "post_excerpt"]
    case Comment => ["comment_content"]
    case User => ["user_login", "user_nicename", "user_email", "display_name"]
    case Custom(_, _, fields) => fields
  }

  /** `get_table`. */
  function Table(kind: Kind, t: Tables): (table: string)
    ensures kind.Custom? ==> table == kind.table
    ensures kind == Post || kind == Page ==> table == t.posts
    ensures kind == Comment ==> table == t.comments
    ensures kind == User ==> table == t.users
  {
    match kind
    case Post => t.posts
    case Page => t.posts
    case Comment => t.comments
    case User => t.users
    case Custom(table, _, _) => table
  }

  /** The declared properties of each class, apart from `meta`. */
  function Declared(kind: Kind): set<string>
  {
    match kind
    case Post => PostFields()
    case Page => PostFields()
    case Comment =>
      {"comment_ID", "comment_post_ID", "comment_author", "comment_author_email", "comment_author_url",
       "comment_author_IP", "comment_date", "comment_date_gmt", "comment_content", "comment_karma",
       "comment_approved", "comment_agent", "comment_type", "comment_parent", "user_id"}
    case User =>
      {"ID", "user_login", "user_pass", "user_nicename", "user_email", "user_url", "user_registered",
       "user_activation_key", "user_status", "display_name"}
    case Custom(_, declared, _) => declared
  }

  function PostFields(): set<string>
  {
    {"ID", "post_author", "post_date", "post_date_gmt", "post_content", "post_title", "post_excerpt",
     "post_status", "comment_status", "ping_status", "post_password", "post_name", "to_ping", "pinged",
     "post_modified", "post_modified_gmt", "post_content_filtered", "post_parent", "guid", "menu_order",
     "post_type", "post_mime_type", "comment_count"}
  }

  /** The input keys each constructor turns into a `DateTime`. */
  function DateFields(kind: Kind): seq<string>
  {
    match kind
    case Post => ["post_date", "post_date_gmt", "post_modified", "post_modified_gmt"]
    case Page => ["post_date", "post_date_gmt", "post_modified", "post_modified_gmt"]
    case Comment => ["comment_date", "comment_date_gmt"]
    case User => ["user_registered"]
    case Custom(_, _, _) => []
  }

  /** The WordPress models carry a `meta` array; a plain `BaseModel` does
      not. */
  predicate HasMeta(kind: Kind)
  {
    !kind.Custom?
  }

  /** The `{scope}` of the `update_{scope}_meta` family a model calls. */
  function MetaScope(kind: Kind): string
  {
    match kind
    case Comment => "comment"
    case User => "user"
    case _ => "post"
  }

  function MetaTable(kind: Kind, t: Tables): string
  {
    match kind
    case Comment => t.commentmeta
    case User => t.usermeta
    case _ => t.postmeta
  }

  /** The metadata column that refers back to the owning row. */
  function MetaOwnerColumn(kind: Kind): string
  {
    match kind
    case Comment => "comment_id"
    case User => "user_id"
    case _ => "post_id"
  }

  /** The initial value of a declared property: null, except that a new
      `Page` has `post_type` `'page'`. */
  function Default(kind: Kind, k: string): Value
  {
    if kind == Page && k == "post_type" then Str("page") else Null
  }

  /** The WordPress models declare their key, their search columns and
      their date columns among their properties, and none of them declares
      `meta` there or uses `'id'`. */
  lemma WordPressModelsAreConsistent(kind: Kind)
    requires HasMeta(kind)
    ensures PrimaryKey(kind) in Declared(kind) && PrimaryKey(kind) != "id"
    ensures forall i :: 0 <= i < |SearchableFields(kind)| ==> SearchableFields(kind)[i] in Declared(kind)
    ensures forall i :: 0 <= i < |DateFields(kind)| ==> DateFields(kind)[i] in Declared(kind)
    ensures "meta" !in Declared(kind) && "id" !in Declared(kind)
  {
    match kind
    case Post => PostFieldsAreConsistent();
    case Page => PostFieldsAreConsistent();
    case Comment => CommentFieldsAreConsistent();
    case User => UserFieldsAreConsistent();
  }

  lemma PostFieldsAreConsistent()
    ensures "ID" in PostFields()
    ensures forall i :: 0 <= i < |SearchableFields(Post)| ==> SearchableFields(Post)[i] in PostFields()
    ensures forall i :: 0 <= i < |DateFields(Post)| ==> DateFields(Post)[i] in PostFields()
    ensures "meta" !in PostFields() && "id" !in PostFields()
  {
    var fs := PostFields();
    assert "meta" !in fs by {
      forall f | f in fs ensures f != "meta" {
        assert |f| != 4 || f == "guid";
        assert "guid"[0] != "meta"[0];
      }
    }
    assert "id" !in fs by {
      forall f | f in fs ensures f != "id" {
        assert |f| != 2 || f == "ID";
        assert "ID"[0] != "id"[0];
      }
    }
  }

  lemma CommentFieldsAreConsistent()
    ensures "comment_ID" in Declared(Comment)
    ensures forall i :: 0 <= i < |SearchableFields(Comment)| ==> SearchableFields(Comment)[i] in Declared(Comment)
    ensures forall i :: 0 <= i < |DateFields(Comment)| ==> DateFields(Comment)[i] in Declared(Comment)
    ensures "meta" !in Declared(Comment) && "id" !in Declared(Comment)
  {
    var fs := Declared(Comment);
    assert "meta" !in fs && "id" !in fs by {
      forall f | f in fs ensures |f| > 4 {
      }
    }
  }

  lemma UserFieldsAreConsistent()
    ensures "ID" in Declared(User)
    ensures forall i :: 0 <= i < |SearchableFields(User)| ==> SearchableFields(User)[i] in Declared(User)
    ensures forall i :: 0 <= i < |DateFields(User)| ==> DateFields(User)[i] in Declared(User)
    ensures "meta" !in Declared(User) && "id" !in Declared(User)
  {
    var fs := Declared(User);
    assert "meta" !in fs by {
      forall f | f in fs ensures |f| != 4 {
      }
    }
    assert "id" !in fs by {
      forall f | f in fs ensures f != "id" {
        assert |f| != 2 || f == "ID";
        assert "ID"[0] != "id"[0];
      }
    }
  }

  // ---------------------------------------------------------------------
  // Construction.

  /** `maybe_unserialize`: a serialized string is decoded; any other value
      is returned as it is. */
  function MaybeUnserialize(v: Value, rt: Runtime): (r: Value)
    ensures !v.Str? ==> r == v
    ensures v.Str? && !rt.isSerialized(v.s) ==> r == v
  {
    if v.Str? && rt.isSerialized(v.s) then rt.unserialize(v.s) else v
  }

  /** The constructor's DateTime step, one `isset` test per field in
      order. */
  function CoerceDates(fields: seq<string>, input: map<string, Value>, parse: Value -> int): (r: map<string, Value>)
    requires forall i, j :: 0 <= i < j < |fields| ==> fields[i] != fields[j]
    ensures r.Keys == input.Keys
    ensures forall k :: k in r ==> r[k] == if k in fields && IsSet(input, k) then Date(parse(input[k])) else input[k]
  {
    if fields == [] then input
    else
      var f := fields[|fields| - 1];
      var before := CoerceDates(fields[..|fields| - 1], input, parse);
      if IsSet(before, f) then before[f := Date(parse(before[f]))] else before
  }

  /** The metadata SELECT: the key value is interpolated unquoted. */
  function MetaSql(kind: Kind, id: Value, t: Tables): string
  {
    "SELECT * FROM `" + MetaTable(kind, t) + "` WHERE `" + MetaOwnerColumn(kind) + "` = " + Interpolate(id)
  }

  /** The metadata map the constructor's loop builds: one entry per key,
      later rows overriding earlier ones. */
  function MetaFromRows(rows: seq<MetaRow>, rt: Runtime): (m: map<string, Value>)
    ensures forall k :: k in m <==> exists i :: 0 <= i < |rows| && rows[i].key == k
  {
    if rows == [] then map[]
    else
      var last := rows[|rows| - 1];
      var before := MetaFromRows(rows[..|rows| - 1], rt);
      assert forall i :: 0 <= i < |rows| - 1 ==> rows[..|rows| - 1][i] == rows[i];
      before[last.key := MaybeUnserialize(last.value, rt)]
  }

  /** A key's value is taken from the last row that carries it. */
  lemma {:induction false} MetaFromRowsTakesLast(rows: seq<MetaRow>, i: int, rt: Runtime)
    requires 0 <= i < |rows|
    requires forall j :: i < j < |rows| ==> rows[j].key != rows[i].key
    ensures MetaFromRows(rows, rt)[rows[i].key] == MaybeUnserialize(rows[i].value, rt)
  {
    if i < |rows| - 1 {
      var init := rows[..|rows| - 1];
      assert init[i] == rows[i];
      MetaFromRowsTakesLast(init, i, rt);
    }
  }

  /** The metadata a new WordPress model holds: loaded only when the
      input sets the primary key. */
  function ConstructedMeta(kind: Kind, input: map<string, Value>, rt: Runtime): map<string, Value>
  {
    if HasMeta(kind) && IsSet(input, PrimaryKey(kind))
    then MetaFromRows(rt.metaRows(MetaSql(kind, input[PrimaryKey(kind)], rt.tables)), rt)
    else map[]
  }

  function Defaults(kind: Kind): (d: map<string, Value>)
    ensures d.Keys == Declared(kind)
  {
    map k | k in Declared(kind) :: Default(kind, k)
  }

  /** `BaseModel::__construct`: every input key that names a property is
      assigned through `maybe_unserialize`; the other properties keep their
      values. */
  function Assigned(base: map<string, Value>, input: map<string, Value>, rt: Runtime): map<string, Value>
  {
    map k | k in base :: if k in input then MaybeUnserialize(input[k], rt) else base[k]
  }

  function DistinctDateFields(kind: Kind): (fields: seq<string>)
    ensures fields == DateFields(kind)
    ensures forall i, j :: 0 <= i < j < |fields| ==> fields[i] != fields[j]
  {
    DateFields(kind)
  }

  /** The properties of a model constructed from `input`. */
  function ConstructedProps(kind: Kind, input: map<string, Value>, rt: Runtime): map<string, Value>
  {
    Assigned(Defaults(kind), CoerceDates(DistinctDateFields(kind), input, rt.parseDate), rt)
  }

  /** The constructor keeps exactly the declared properties: a declared
      date column set in the input becomes the `DateTime` it denotes, any
      other declared property given in the input takes its
      `maybe_unserialize`d value, and the rest keep their defaults. Input
      keys that are not declared properties have no effect. */
  lemma ConstructorKeepsDeclared(kind: Kind, input: map<string, Value>, rt: Runtime)
    ensures var p := ConstructedProps(kind, input, rt);
            && p.Keys == Declared(kind)
            && (forall k :: k in p && k in DateFields(kind) && IsSet(input, k) ==> p[k] == Date(rt.parseDate(input[k])))
            && (forall k :: k in p && (k !in DateFields(kind) || !IsSet(input, k)) && k in input ==>
                  p[k] == MaybeUnserialize(input[k], rt))
            && (forall k :: k in p && k !in input ==> p[k] == Default(kind, k))
  {
  }

  lemma ConstructedKeys(kind: Kind, input: map<string, Value>, rt: Runtime)
    ensures ConstructedProps(kind, input, rt).Keys == Declared(kind)
    ensures HasMeta(kind) ==> "meta" !in ConstructedProps(kind, input, rt)
  {
    if HasMeta(kind) {
      WordPressModelsAreConsistent(kind);
    }
  }

  /** Two inputs that agree on the declared properties construct the same
      model: undeclared keys are dropped silently. */
  lemma ConstructorIgnoresUndeclared(kind: Kind, a: map<string, Value>, b: map<string, Value>, rt: Runtime)
    requires forall k :: k in Declared(kind) ==> (k in a <==> k in b)
    requires forall k :: k in Declared(kind) && k in a ==> a[k] == b[k]
    ensures ConstructedProps(kind, a, rt) == ConstructedProps(kind, b, rt)
  {
    ConstructionAgrees(Defaults(kind), DistinctDateFields(kind), a, b, rt);
  }

  /** Date coercion and assignment read the input only at the keys of
      `base`. */
  lemma ConstructionAgrees(base: map<string, Value>, fields: seq<string>, a: map<string, Value>, b: map<string, Value>, rt: Runtime)
    requires forall i, j :: 0 <= i < j < |fields| ==> fields[i] != fields[j]
    requires forall k :: k in base ==> (k in a <==> k in b)
    requires forall k :: k in base && k in a ==> a[k] == b[k]
    ensures Assigned(base, CoerceDates(fields, a, rt.parseDate), rt) == Assigned(base, CoerceDates(fields, b, rt.parseDate), rt)
  {
    var ca := CoerceDates(fields, a, rt.parseDate);
    var cb := CoerceDates(fields, b, rt.parseDate);
    var pa := Assigned(base, ca, rt);
    var pb := Assigned(base, cb, rt);
    forall k | k in base
      ensures pa[k] == pb[k]
    {
      if k in a {
        CoercedAgreeAt(fields, a, b, rt.parseDate, k);
      }
    }
  }

  lemma CoercedAgreeAt(fields: seq<string>, a: map<string, Value>, b: map<string, Value>, parse: Value -> int, k: string)
    requires forall i, j :: 0 <= i < j < |fields| ==> fields[i] != fields[j]
    requires k in a && k in b && a[k] == b[k]
    ensures k in CoerceDates(fields, b, parse) && CoerceDates(fields, a, parse)[k] == CoerceDates(fields, b, parse)[k]
  {
  }

  /** Metadata is loaded only when the input sets the key; otherwise the
      model starts with an empty map. */
  lemma MetaLoadedOnlyWithKey(kind: Kind, input: map<string, Value>, rt: Runtime)
    ensures !IsSet(input, PrimaryKey(kind)) ==> ConstructedMeta(kind, input, rt) == map[]
    ensures !HasMeta(kind) ==> ConstructedMeta(kind, input, rt) == map[]
    ensures HasMeta(kind) && IsSet(input, PrimaryKey(kind)) ==>
              var rows := rt.metaRows(MetaSql(kind, input[PrimaryKey(kind)], rt.tables));
              ConstructedMeta(kind, input, rt).Keys == set i | 0 <= i < |rows| :: rows[i].key
  {
  }

  // ---------------------------------------------------------------------
  // Flattening and saving.

  /** `flatten_props` on one value: a `DateTime` becomes its
      `'Y-m-d H:i:s'` text and an array its serialization. */
  function FlattenValue(v: Value, rt: Runtime): (r: Value)
    ensures !r.Date? && !r.Arr?
    ensures r == Null <==> v == Null
    ensures v.Date? ==> r == Str(rt.formatDate(v.instant))
    ensures v.Arr? ==> r == Str(rt.serialize(v.items))
    ensures !v.Date? && !v.Arr? ==> r == v
  {
    match v
    case Date(t) => Str(rt.formatDate(t))
    case Arr(items) => Str(rt.serialize(items))
    case _ => v
  }

  /** The properties as `get_object_vars` reports them: the WordPress
      models add their `meta` array. */
  function PropertiesOf(kind: Kind, props: map<string, Value>, meta: map<string, Value>): map<string, Value>
  {
    if HasMeta(kind) then props["meta" := Arr(meta)] else props
  }

  /** The row `flatten_props` returns: `meta` removed first in the
      WordPress models, then every value flattened. */
  function Flattened(kind: Kind, p: map<string, Value>, rt: Runtime): (row: map<string, Value>)
    ensures row.Keys == if HasMeta(kind) then p.Keys - {"meta"} else p.Keys
    ensures forall k :: k in row ==> row[k] == FlattenValue(p[k], rt)
    ensures forall k :: k in row ==> !row[k].Date? && !row[k].Arr?
    ensures forall k :: k in row && !p[k].Date? && !p[k].Arr? ==> row[k] == p[k]
  {
    var q := if HasMeta(kind) then p - {"meta"} else p;
    map k | k in q :: FlattenValue(q[k], rt)
  }

  /** The write `save` issues for a model's current state. */
  function SaveWrite(kind: Kind, props: map<string, Value>, meta: map<string, Value>, rt: Runtime): DbWrite
  {
    var row := Flattened(kind, PropertiesOf(kind, props, meta), rt);
    var pk := PrimaryKey(kind);
    if PropOrNull(row, pk) == Null then Insert(Table(kind, rt.tables), row)
    else Update(Table(kind, rt.tables), row, map[pk := PropOrNull(props, pk)])
  }

  /** `save` inserts exactly when the primary key is null (or unset);
      otherwise it updates the row selected by the key's current value.
      Either way the row holds every property but `meta`. */
  lemma SaveInsertsExactlyWhenKeyIsNull(kind: Kind, props: map<string, Value>, meta: map<string, Value>, rt: Runtime)
    requires HasMeta(kind) ==> "meta" !in props
    ensures var w := SaveWrite(kind, props, meta, rt);
            && (w.Insert? <==> PropOrNull(props, PrimaryKey(kind)) == Null)
            && (w.Update? ==> w.where == map[PrimaryKey(kind) := props[PrimaryKey(kind)]])
            && (w.Insert? || w.Update?)
            && w.row.Keys == props.Keys
            && w.table == Table(kind, rt.tables)
  {
    var pk := PrimaryKey(kind);
    var p := PropertiesOf(kind, props, meta);
    if HasMeta(kind) {
      assert pk != "meta";
      assert p.Keys - {"meta"} == props.Keys;
    }
    if pk in props {
      assert p[pk] == props[pk];
    }
  }

  /** What `save` returns, `$this->id`: null for the WordPress models,
      whose key is `ID` or `comment_ID`, and the primary key for a class
      keyed by the default `id`. */
  lemma SaveReturnsId(kind: Kind, props: map<string, Value>)
    requires Declared(kind) <= props.Keys <= Declared(kind) + {PrimaryKey(kind)}
    ensures HasMeta(kind) ==> PropOrNull(props, "id") == Null
    ensures kind.Custom? ==> PropOrNull(props, "id") == PropOrNull(props, PrimaryKey(kind))
  {
    if HasMeta(kind) {
      WordPressModelsAreConsistent(kind);
    }
  }

  /** Reading a row and flattening it back reproduces the row's value for
      every declared property that is not a date column and whose value is
      a scalar that is not serialized text. */
  lemma FlattenUndoesConstruction(kind: Kind, input: map<string, Value>, meta: map<string, Value>, rt: Runtime, k: string)
    requires k in Declared(kind) && k !in DateFields(kind) && k in input
    requires !input[k].Date? && !input[k].Arr?
    requires !(input[k].Str? && rt.isSerialized(input[k].s))
    ensures var row := Flattened(kind, PropertiesOf(kind, ConstructedProps(kind, input, rt), meta), rt);
            k in row && row[k] == input[k]
  {
    ConstructedScalar(kind, input, rt, k);
    if HasMeta(kind) {
      WordPressModelsAreConsistent(kind);
    }
    FlattenKeepsScalar(kind, ConstructedProps(kind, input, rt), meta, rt, k);
  }

  /** Flattening keeps a scalar property other than `meta`. */
  lemma FlattenKeepsScalar(kind: Kind, p: map<string, Value>, meta: map<string, Value>, rt: Runtime, k: string)
    requires k in p && (HasMeta(kind) ==> k != "meta")
    requires !p[k].Date? && !p[k].Arr?
    ensures var row := Flattened(kind, PropertiesOf(kind, p, meta), rt);
            k in row && row[k] == p[k]
  {
    var all := PropertiesOf(kind, p, meta);
    assert k in all && all[k] == p[k];
  }

  /** A declared, non-date input value that is not serialized text is
      stored as given. */
  lemma ConstructedScalar(kind: Kind, input: map<string, Value>, rt: Runtime, k: string)
    requires k in Declared(kind) && k !in DateFields(kind) && k in input
    requires !(input[k].Str? && rt.isSerialized(input[k].s))
    ensures k in ConstructedProps(kind, input, rt) && ConstructedProps(kind, input, rt)[k] == input[k]
  {
    var coerced := CoerceDates(DistinctDateFields(kind), input, rt.parseDate);
    assert coerced[k] == input[k];
    assert k in Defaults(kind);
  }

  /** The write `delete` issues: the same key selection as an update. */
  function DeleteWrite(kind: Kind, props: map<string, Value>, rt: Runtime): (w: DbWrite)
    ensures w.Delete? && w.table == Table(kind, rt.tables)
    ensures PrimaryKey(kind) in props && props[PrimaryKey(kind)] != Null ==>
              w.where == SaveWrite(kind, props, map[], rt).where
  {
    var pk := PrimaryKey(kind);
    var row := Flattened(kind, PropertiesOf(kind, props, map[]), rt);
    assert pk in props ==> pk in row && row[pk] == FlattenValue(PropertiesOf(kind, props, map[])[pk], rt);
    Delete(Table(kind, rt.tables), map[pk := PropOrNull(props, pk)])
  }

  // ---------------------------------------------------------------------
  // Finding.

  /** The SELECT of `find_one_by`. */
  function FindOneBySql(kind: Kind, property: string, value: string, rt: Runtime): string
  {
    "SELECT * FROM `" + Table(kind, rt.tables) + "` WHERE `" + property + "` = '" + rt.escSql(value) + "'"
  }

  /** An equality on a backtick-quoted column with the escaped value
      between the quote characters `q`. */
  function EqWith(q: string, column: string, escaped: string): string
  {
    "`" + column + "` = " + q + escaped + q
  }

  /** `find_one_by` and the builder's `where` render the same equality,
      except that `find_one_by` quotes the value with single quotes and the
      builder with double quotes. */
  lemma FindOneByQuotesSingly(kind: Kind, property: string, value: string, rt: Runtime)
    ensures FindOneBySql(kind, property, value, rt)
            == "SELECT * FROM `" + Table(kind, rt.tables) + "` WHERE " + EqWith("'", property, rt.escSql(value))
    ensures Queries.CompareText(Queries.Eq, property, value, rt.escSql) == EqWith("\"", property, rt.escSql(value))
  {
  }

  /** The state of the builder `query()` returns: searchable fields and
      primary key set, sorted by the key, and for `Page` one predicate on
      `post_type`. */
  function ModelQueryState(kind: Kind): Queries.QueryState
  {
    var base := Queries.Initial.(searchFields := SearchableFields(kind), primaryKey := Some(PrimaryKey(kind)),
                                 sortBy := PrimaryKey(kind));
    if kind == Page then base.(where := [PageType]) else base
  }

  /** The predicate `Page::query` adds. */
  const PageType := Queries.Compare(Queries.Eq, "post_type", "page")

  lemma PageTypeFragment(esc: string -> string)
    ensures Queries.Fragments([PageType], esc) == " AND " + ("`post_type` = \"" + esc("page") + "\"")
  {
    assert Queries.Fragments([PageType], esc) == Queries.Fragment(PageType, esc) by {
      Queries.FragmentsSnoc([], PageType, esc);
      assert [] + [PageType] == [PageType];
    }
    PostTypeEquality();
  }

  lemma PostTypeEquality()
    ensures "`" + "post_type" + "` " + Queries.OpText(Queries.Eq) + " \"" == "`post_type` = \""
  {
  }

  lemma PageTypeText(esc: string -> string)
    ensures Queries.Fragments([PageType], esc) == " AND `post_type` = \"" + esc("page") + "\""
  {
    var e := esc("page");
    PageTypeFragment(esc);
    Assoc(" AND ", "`post_type` = \"" + e, "\"");
    Assoc(" AND ", "`post_type` = \"", e);
    assert " AND " + "`post_type` = \"" == " AND `post_type` = \"";
  }

  /** A fresh model query selects the whole table ordered by the primary
      key; `Page` restricts it to `post_type` `"page"`. */
  lemma ModelQueryComposes(kind: Kind, rt: Runtime)
    ensures Queries.Compose(ModelQueryState(kind), Table(kind, rt.tables), false, rt.escSql)
            == "SELECT * FROM `" + Table(kind, rt.tables) + "`"
               + (if kind == Page then " WHERE `post_type` = \"" + rt.escSql("page") + "\"" else "")
               + " ORDER BY `" + PrimaryKey(kind) + "` ASC"
  {
    if kind == Page {
      PageQuery(Table(kind, rt.tables), rt.escSql);
    } else {
      PlainModelQuery(kind, Table(kind, rt.tables), rt.escSql);
    }
  }

  lemma PlainModelQuery(kind: Kind, table: string, esc: string -> string)
    requires kind != Page
    ensures Queries.Compose(ModelQueryState(kind), table, false, esc)
            == "SELECT * FROM `" + table + "`" + "" + " ORDER BY `" + PrimaryKey(kind) + "` ASC"
  {
    var pk := PrimaryKey(kind);
    assert !('(' in pk && ')' in pk) by {
      match kind
      case Post =>
      case Comment =>
      case User =>
      case Custom(_, _, _) =>
    }
    var st := ModelQueryState(kind);
    assert st == Queries.Initial.(searchFields := SearchableFields(kind), sortBy := pk, primaryKey := Some(pk));
    assert Queries.WhereBody(st, esc) == "";
    QueryTail("SELECT * FROM `" + table + "`" + "", pk);
  }

  lemma PageQuery(table: string, esc: string -> string)
    ensures Queries.Compose(ModelQueryState(Page), table, false, esc)
            == "SELECT * FROM `" + table + "`" + (" WHERE `post_type` = \"" + esc("page") + "\"") + " ORDER BY `" + "ID" + "` ASC"
  {
    PageQueryWhere(esc);
    QueryTail("SELECT * FROM `" + table + "`" + (" WHERE `post_type` = \"" + esc("page") + "\""), "ID");
  }

  /** The ORDER BY of a model query, with neither LIMIT nor OFFSET. */
  lemma QueryTail(head: string, pk: string)
    requires !('(' in pk && ')' in pk)
    ensures head + Queries.OrderClause(pk, "ASC") + Queries.LimitClause(0) + Queries.OffsetClause(0)
            == head + " ORDER BY `" + pk + "` ASC"
  {
    Assoc(head + " ORDER BY `", pk, "` ASC");
    Assoc(head, " ORDER BY `", pk);
    Assoc(head, " ORDER BY `" + pk, "` ASC");
  }

  lemma PageQueryWhere(esc: string -> string)
    ensures Queries.WhereClause(ModelQueryState(Page), esc) == " WHERE `post_type` = \"" + esc("page") + "\""
  {
    var st := ModelQueryState(Page);
    var e := esc("page");
    var text := "`post_type` = \"" + e + "\"";
    PageTypeFragment(esc);
    assert Queries.SearchFragment(st, esc) == "";
    assert Queries.WhereBody(st, esc) == " AND " + text;
    assert DropFirst(" AND " + text, 5) == text;
    Assoc(" WHERE ", "`post_type` = \"" + e, "\"");
    Assoc(" WHERE ", "`post_type` = \"", e);
  }

  /** Predicates added to a `Page` query are AND-ed after its `post_type`
      predicate, in call order. */
  lemma PagePredicatesFollow(ps: seq<Queries.Predicate>, esc: string -> string)
    ensures Queries.Fragments(ModelQueryState(Page).where + ps, esc)
            == " AND `post_type` = \"" + esc("page") + "\"" + Queries.Fragments(ps, esc)
  {
    Queries.FragmentsAppend([PageType], ps, esc);
    PageTypeText(esc);
  }

  // ---------------------------------------------------------------------
  // The loops of the model methods.

  /** The metadata loop of the WordPress constructors. */
  method LoadMeta(rows: seq<MetaRow>, rt: Runtime) returns (m: map<string, Value>)
    ensures m == MetaFromRows(rows, rt)
  {
    m := map[];
    var i := 0;
    while i < |rows|
      invariant 0 <= i <= |rows|
      invariant m == MetaFromRows(rows[..i], rt)
    {
      assert rows[..i + 1][..i] == rows[..i];
      m := m[rows[i].key := MaybeUnserialize(rows[i].value, rt)];
      i := i + 1;
    }
    assert rows[..|rows|] == rows;
  }

  /** The metadata step of the WordPress constructors. */
  method LoadModelMeta(kind: Kind, input: map<string, Value>, rt: Runtime) returns (m: map<string, Value>)
    ensures m == ConstructedMeta(kind, input, rt)
  {
    m := map[];
    if HasMeta(kind) && IsSet(input, PrimaryKey(kind)) {
      var rows := rt.metaRows(MetaSql(kind, input[PrimaryKey(kind)], rt.tables));
      m := LoadMeta(rows, rt);
    }
  }

  /** The date coercion of the WordPress constructors followed by
      `BaseModel::__construct`'s assignment loop. */
  method InitialProps(kind: Kind, input: map<string, Value>, rt: Runtime) returns (p: map<string, Value>)
    ensures p == ConstructedProps(kind, input, rt)
  {
    var coerced := CoerceDates(DistinctDateFields(kind), input, rt.parseDate);
    p := AssignProperties(Defaults(kind), coerced, rt);
  }

  /** The assignment loop of `BaseModel::__construct`, over the input keys
      that are properties. */
  method AssignProperties(base: map<string, Value>, input: map<string, Value>, rt: Runtime)
    returns (r: map<string, Value>)
    ensures r == Assigned(base, input, rt)
  {
    r := base;
    var todo := input.Keys * base.Keys;
    while todo != {}
      invariant todo <= input.Keys * base.Keys
      invariant r.Keys == base.Keys
      invariant forall k :: k in r ==> r[k] == if k in input && k !in todo then MaybeUnserialize(input[k], rt) else base[k]
      decreases todo
    {
      var k :| k in todo;
      r := r[k := MaybeUnserialize(input[k], rt)];
      todo := todo - {k};
    }
  }

  /** The loop of `flatten_props`, after `meta` has been removed. */
  method FlattenProps(kind: Kind, p: map<string, Value>, rt: Runtime) returns (row: map<string, Value>)
    ensures row == Flattened(kind, p, rt)
  {
    row := if HasMeta(kind) then p - {"meta"} else p;
    var todo := row.Keys;
    ghost var q := row;
    while todo != {}
      invariant todo <= q.Keys && row.Keys == q.Keys
      invariant forall k :: k in row ==> row[k] == if k in todo then q[k] else FlattenValue(q[k], rt)
      decreases todo
    {
      var k :| k in todo;
      row := row[k := FlattenValue(row[k], rt)];
      todo := todo - {k};
    }
  }

  // ---------------------------------------------------------------------
  // The model object.

  class Model {
    const kind: Kind
    /** The declared properties, plus a primary key `save` assigned when
        the class does not declare it. */
    var props: map<string, Value>
    /** The `meta` array of the WordPress models (always empty otherwise). */
    var meta: map<string, Value>

    ghost predicate Valid()
      reads this
    {
      && Declared(kind) <= props.Keys <= Declared(kind) + {PrimaryKey(kind)}
      && (HasMeta(kind) ==> "meta" !in props)
    }

    /** `properties()` / `to_array()`. */
    function Properties(): (all: map<string, Value>)
      reads this
      ensures all.Keys == if HasMeta(kind) then props.Keys + {"meta"} else props.Keys
      ensures forall k :: k in props && (k != "meta" || !HasMeta(kind)) ==> all[k] == props[k]
      ensures HasMeta(kind) ==> all["meta"] == Arr(meta)
    {
      PropertiesOf(kind, props, meta)
    }

    /** `primary_key()`. */
    function PrimaryKeyValue(): (v: Value)
      reads this
      ensures PrimaryKey(kind) in props ==> v == props[PrimaryKey(kind)]
      ensures PrimaryKey(kind) !in props ==> v == Null
    {
      PropOrNull(props, PrimaryKey(kind))
    }

    /** `new static($properties)` and `create($properties)`. */
    constructor (kind: Kind, input: map<string, Value>, rt: Runtime)
      ensures this.kind == kind && Valid()
      ensures props == ConstructedProps(kind, input, rt)
      ensures meta == ConstructedMeta(kind, input, rt)
    {
      this.kind := kind;
      var loaded := LoadModelMeta(kind, input, rt);
      var initial := InitialProps(kind, input, rt);
      props := initial;
      meta := loaded;
      new;
      ConstructedKeys(kind, input, rt);
    }

    /** `__call`: `get_X` returns property X and `set_X(v)` assigns it when
        X is one of the object's properties; any other name does nothing
        and returns null. */
    method Call(name: string, args: seq<Value>) returns (r: Value)
      requires Valid()
      modifies this
      ensures Valid()
      ensures var p := Accessor(name, "get_");
              r == if p.Some? && p.value in old(Properties()) then old(Properties())[p.value] else Null
      ensures var p := Accessor(name, "set_");
              var v := if |args| > 0 then args[0] else Null;
              Properties() == if p.Some? && p.value in old(Properties()) && (p.value != "meta" || !HasMeta(kind) || v.Arr?)
                              then old(Properties())[p.value := v] else old(Properties())
    {
      var all := Properties();
      r := Null;
      var getter := Accessor(name, "get_");
      if getter.Some? && getter.value in all {
        r := all[getter.value];
      }
      var setter := Accessor(name, "set_");
      if setter.Some? && setter.value in all {
        var v := if |args| > 0 then args[0] else Null;
        if HasMeta(kind) && setter.value == "meta" {
          if v.Arr? {
            SetMetaProperty(kind, props, meta, v.items);
            meta := v.items;
          }
        } else {
          SetPlainProperty(kind, props, meta, setter.value, v);
          props := props[setter.value := v];
        }
      }
    }

    /** `save`: flattens the properties, then inserts (and takes the insert
        id as primary key) or updates by the key. It returns the `id`
        property, which only a class keyed by `id` has. */
    method Save(rt: Runtime, insertId: int) returns (write: DbWrite, result: Value)
      requires Valid()
      modifies this
      ensures Valid() && meta == old(meta)
      ensures write == SaveWrite(kind, old(props), old(meta), rt)
      ensures props == if write.Insert? then old(props)[PrimaryKey(kind) := Int(insertId)] else old(props)
      ensures result == PropOrNull(props, "id")
      ensures HasMeta(kind) ==> result == Null
      ensures kind.Custom? ==> result == PrimaryKeyValue()
    {
      var pk := PrimaryKey(kind);
      var row := FlattenProps(kind, Properties(), rt);
      if PropOrNull(row, pk) == Null {
        write := Insert(Table(kind, rt.tables), row);
        props := props[pk := Int(insertId)];
      } else {
        write := Update(Table(kind, rt.tables), row, map[pk := PropOrNull(props, pk)]);
      }
      SaveReturnsId(kind, props);
      result := PropOrNull(props, "id");
    }

    /** `delete`. */
    function Delete(rt: Runtime): (w: DbWrite)
      reads this
      ensures w == DeleteWrite(kind, props, rt)
    {
      DbWrite.Delete(Table(kind, rt.tables), map[PrimaryKey(kind) := PrimaryKeyValue()])
    }

    /** `get_metadata`: the stored value, null when the key is absent; the
        default argument is not consulted. */
    function GetMetadata(key: string, default: Value): (r: Value)
      requires HasMeta(kind)
      reads this
      ensures key in meta ==> r == meta[key]
      ensures key !in meta ==> r == Null
    {
      PropOrNull(meta, key)
    }

    method UpdateMetadata(key: string, value: Value) returns (w: MetaWrite)
      requires Valid() && HasMeta(kind)
      modifies this
      ensures Valid() && props == old(props)
      ensures meta == old(meta)[key := value]
      ensures w == MetaUpdate(MetaScope(kind), PrimaryKeyValue(), key, value)
    {
      meta := meta[key := value];
      w := MetaUpdate(MetaScope(kind), PrimaryKeyValue(), key, value);
    }

    method DeleteMetadata(key: string) returns (w: MetaWrite)
      requires Valid() && HasMeta(kind)
      modifies this
      ensures Valid() && props == old(props)
      ensures meta == old(meta) - {key}
      ensures w == MetaDelete(MetaScope(kind), PrimaryKeyValue(), key)
    {
      meta := meta - {key};
      w := MetaDelete(MetaScope(kind), PrimaryKeyValue(), key);
    }
  }

  /** Setting `meta` on a WordPress model replaces the reported `meta`
      array and nothing else. */
  lemma SetMetaProperty(kind: Kind, props: map<string, Value>, meta: map<string, Value>, items: map<string, Value>)
    requires HasMeta(kind)
    ensures PropertiesOf(kind, props, items) == PropertiesOf(kind, props, meta)["meta" := Arr(items)]
  {
  }

  /** Setting a property other than `meta` changes that one entry of the
      reported properties and keeps the property names. */
  lemma SetPlainProperty(kind: Kind, props: map<string, Value>, meta: map<string, Value>, k: string, v: Value)
    requires k in PropertiesOf(kind, props, meta)
    requires HasMeta(kind) ==> k != "meta"
    ensures PropertiesOf(kind, props[k := v], meta) == PropertiesOf(kind, props, meta)[k := v]
    ensures props[k := v].Keys == props.Keys
  {
  }

  /** `get_X` / `set_X`: the property named after the four-character
      prefix. */
  function Accessor(name: string, prefix: string): (p: Option<string>)
    requires |prefix| == 4
    ensures p.Some? <==> |name| >= 4 && name[..4] == prefix
    ensures p.Some? ==> prefix + p.value == name
  {
    if |name| >= 4 && name[..4] == prefix then Some(name[4..]) else None
  }

  /** `update_metadata(k, v)` and then `get_metadata(k)` on the same model
      yields `v`; the properties and every other key read as before. */
  method UpdateThenRead(m: Model, k: string, v: Value) returns (r: Value)
    requires m.Valid() && HasMeta(m.kind)
    modifies m
    ensures r == v
    ensures m.Valid() && m.props == old(m.props)
    ensures forall o :: o != k ==> m.GetMetadata(o, Null) == old(m.GetMetadata(o, Null))
  {
    var w := m.UpdateMetadata(k, v);
    r := m.GetMetadata(k, Null);
  }

  /** `delete_metadata(k)` and then `get_metadata(k)` yields null; the
      properties and every other key read as before. */
  method DeleteThenRead(m: Model, k: string) returns (r: Value)
    requires m.Valid() && HasMeta(m.kind)
    modifies m
    ensures r == Null
    ensures m.Valid() && m.props == old(m.props)
    ensures forall o :: o != k ==> m.GetMetadata(o, Null) == old(m.GetMetadata(o, Null))
  {
    var w := m.DeleteMetadata(k);
    r := m.GetMetadata(k, Null);
  }

  /** `find_one_by`: looks the row up with its SELECT; a missing or empty
      row gives false (`None`), any other row a model built from it. */
  method FindOneBy(kind: Kind, property: string, value: string, rt: Runtime) returns (m: Option<Model>)
    ensures var row := rt.getRow(FindOneBySql(kind, property, value, rt));
            m.Some? <==> row.Some? && row.value != map[]
    ensures m.Some? ==> fresh(m.value) && m.value.kind == kind && m.value.Valid()
    ensures m.Some? ==> var row := rt.getRow(FindOneBySql(kind, property, value, rt)).value;
                        m.value.props == ConstructedProps(kind, row, rt) && m.value.meta == ConstructedMeta(kind, row, rt)
  {
    var row := rt.getRow(FindOneBySql(kind, property, value, rt));
    if row.Some? && row.value != map[] {
      var model := new Model(kind, row.value, rt);
      m := Some(model);
    } else {
      m := None;
    }
  }

  /** `find_one`: `find_one_by` on the primary key with the id as an
      integer. */
  method FindOne(kind: Kind, id: int, rt: Runtime) returns (m: Option<Model>)
    ensures var row := rt.getRow(FindOneBySql(kind, PrimaryKey(kind), IntToString(id), rt));
            m.Some? <==> row.Some? && row.value != map[]
    ensures m.Some? ==> fresh(m.value) && m.value.kind == kind && m.value.Valid()
    ensures m.Some? ==> var row := rt.getRow(FindOneBySql(kind, PrimaryKey(kind), IntToString(id), rt)).value;
                        m.value.props == ConstructedProps(kind, row, rt) && m.value.meta == ConstructedMeta(kind, row, rt)
  {
    m := FindOneBy(kind, PrimaryKey(kind), IntToString(id), rt);
  }

  /** `query()`: a new builder for the model's table, seeded with its
      searchable fields and primary key (and, for `Page`, the `post_type`
      predicate). */
  method NewQuery(kind: Kind, rt: Runtime) returns (q: Queries.Query)
    ensures fresh(q) && q.table == Table(kind, rt.tables)
    ensures q.State() == ModelQueryState(kind)
  {
    q := new Queries.Query(Table(kind, rt.tables));
    q.SetSearchableFields(SearchableFields(kind));
    q.SetPrimaryKey(PrimaryKey(kind));
    if kind == Page {
      q := q.Where("post_type", "page");
    }
  }
}
