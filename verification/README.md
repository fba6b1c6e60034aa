# wp-orm in Dafny

A model of the core of wp-orm, a small object-relational layer for
WordPress written in PHP:

- `Query`, the fluent builder. It accumulates predicates, a search term,
  the searchable fields, a sort column and direction, a limit and an
  offset. `compose_query` then concatenates them into one SQL string,
  trimming with `substr` as it goes.
- `BaseModel` and the WordPress models `Post`, `Page`, `Comment` and
  `User`. They cover:
  - construction from an input array, with declared properties only,
    `maybe_unserialize`, dates turned into `DateTime`, and metadata loaded
    when the key is set;
  - the `get_X`/`set_X` accessors;
  - flattening and the insert-or-update decision of `save`;
  - `delete`, `find_one_by`/`find_one` and `query()`;
  - the in-memory metadata map.
- The rules of the admin `ListTable` that decide something rather than
  print it:
  - the pagination arguments and the current page;
  - the selected bulk action;
  - the separator layout of row actions;
  - the normalisation of sortable columns and the count of visible ones;
  - the sort-link toggle;
  - the state that `bulk_actions` and `single_row` keep between calls.

The project has four files:

- `php.dfy` (module `Php`) holds the PHP behaviour the core leans on:
  - dynamically typed values;
  - `isset` and `empty`;
  - `substr` trimming and `implode`;
  - integer-to-text conversion.
- `queries.dfy` (module `Queries`) holds the builder. It is a class whose
  methods update its fields. `compose_query` is a method whose loops are
  proved equal to the specification function `Compose`. A reference
  reading states what `Compose` produces: the conditions joined by
  `AND`.
- `models.dfy` (module `Models`) holds the model classes:
  - The class is `Kind`, and a `Custom` kind stands for an application's
    own subclass.
  - The object is the class `Model`, with a property map and a metadata
    map.
  - The database handle and the WordPress helpers are function-typed
    fields of `Runtime`, so nothing is assumed about them.
  - Database writes are returned as `DbWrite` and `MetaWrite` values.
- `listtable.dfy` (module `ListTables`) holds the list-table rules. The
  table's caches and its row class are fields of the class `ListTable`.
  Request values are parameters.

## Model

| member | source | states |
|---|---|---|
| Queries.Query.constructor | src/Query.php:26-74 | a new builder has limit 0, offset 0, no predicates, sort column `id`, direction `ASC`, no search term, no searchable fields and no primary key |
| Queries.Query.SetSearchableFields | src/Query.php:91-94 | replaces the searchable fields and nothing else |
| Queries.Query.SetPrimaryKey | src/Query.php:101-105 | stores the key and also makes it the sort column; nothing else changes |
| Queries.Query.Limit | src/Query.php:113-118 | overwrites the limit only and returns the same builder |
| Queries.Query.Offset | src/Query.php:126-131 | overwrites the offset only and returns the same builder |
| Queries.Query.SortBy | src/Query.php:139-144 | overwrites the sort column only and returns the same builder |
| Queries.Query.Order | src/Query.php:152-157 | overwrites the direction only and returns the same builder |
| Queries.Query.Search | src/Query.php:333-338 | overwrites the search term only and returns the same builder |
| Queries.Query.AddPredicate | src/Query.php:166-325 | appends exactly one entry at the end of the predicate list; every other field is unchanged |
| Queries.Query.Where | src/Query.php:166-171 | appends one `=` predicate and leaves everything else unchanged |
| Queries.Query.WhereNot | src/Query.php:180-185 | appends one `!=` predicate and leaves everything else unchanged |
| Queries.Query.WhereLike | src/Query.php:194-199 | appends one `LIKE` predicate and leaves everything else unchanged |
| Queries.Query.WhereNotLike | src/Query.php:208-213 | appends one `NOT LIKE` predicate and leaves everything else unchanged |
| Queries.Query.WhereLt | src/Query.php:222-227 | appends one `<` predicate and leaves everything else unchanged |
| Queries.Query.WhereLte | src/Query.php:236-241 | appends one `<=` predicate and leaves everything else unchanged |
| Queries.Query.WhereGt | src/Query.php:250-255 | appends one `>` predicate and leaves everything else unchanged |
| Queries.Query.WhereGte | src/Query.php:264-269 | appends one `>=` predicate and leaves everything else unchanged |
| Queries.Query.WhereIn | src/Query.php:278-283 | appends one `IN` predicate with the values in order |
| Queries.Query.WhereNotIn | src/Query.php:292-297 | appends one `NOT IN` predicate with the values in order |
| Queries.Query.WhereAny | src/Query.php:306-311 | appends one OR-group predicate with the column/value pairs in order |
| Queries.Query.WhereAll | src/Query.php:320-325 | appends one AND-group predicate with the column/value pairs in order |
| Queries.Query.ComposeQuery | src/Query.php:385-522 | the SQL text equals `Compose` of the current state; it reads the fields only, so composing twice gives the same text |
| Queries.LikeTerms | src/Query.php:398-400 | one `` `f` LIKE "%term%" `` term per searchable field, in field order |
| Queries.EqTerms | src/Query.php:473-486 | one `` `c` = "v" `` term per pair, in pair order |
| Queries.QuotedValues | src/Query.php:451-464 | one double-quoted escaped value per list value, in order |
| Queries.SearchFragment | src/Query.php:395-403 | the search adds text exactly when the term is not PHP-empty (`null`, `''`, `'0'` add nothing) |
| Queries.AppendLikes | src/Query.php:398-400 | the search loop appends every LIKE term followed by `' OR '` |
| Queries.AppendQuoted | src/Query.php:451-453 | the `IN` loop appends every quoted value followed by a comma |
| Queries.AppendEqualities | src/Query.php:473-486 | the group loop appends every equality followed by the joiner |
| Queries.AppendSearch | src/Query.php:394-403 | the search step leaves exactly the search fragment |
| Queries.TrimClose | src/Query.php:455 | trimming the accumulated text touches only the piece just appended, when that piece is long enough |
| Queries.AppendList | src/Query.php:447-467 | the `IN` / `NOT IN` branch appends exactly that predicate's text, trimming included |
| Queries.AppendGroup | src/Query.php:469-489 | the `where_any` / `where_all` branch appends exactly that group's text, trimming included |
| Queries.AppendFragment | src/Query.php:406-489 | one pass of the predicate loop appends exactly the predicate's fragment to what was there |
| Queries.AppendFragments | src/Query.php:406-490 | the predicate loop appends the fragments of all predicates in insertion order |
| Queries.GroupFragment | src/Query.php:469-489 | a non-empty group is ` AND (` plus the joined equalities plus `)`, less the characters that the five-character trim takes beyond the joiner |
| Queries.ListFragment | src/Query.php:447-467 | an `IN` list renders as `` AND `c` IN ("v1","v2") ``, and an empty list as `` AND `c` IN ) `` |
| Queries.FragmentIsAndCondition | src/Query.php:406-489 | every well-formed predicate appends `' AND '` and then its condition, with the operator its type selects |
| Queries.SearchFragmentIsAndCondition | src/Query.php:395-403 | a search over at least one field appends `' AND '` and the parenthesised OR-group of LIKE terms |
| Queries.FragmentsArePrefixed | src/Query.php:406-490 | the predicate loop's text is each condition preceded by `' AND '`, in insertion order |
| Queries.WhereBodyIsPrefixed | src/Query.php:394-490 | the WHERE text before trimming is the search condition (if any) and then the predicate conditions, each preceded by `' AND '` |
| Queries.SearchedBodyIsPrefixed | src/Query.php:394-490 | the same, when there is a search: the search group comes first |
| Queries.WhereClauseJoinsConditions | src/Query.php:394-495 | no WHERE clause when there are no conjuncts; otherwise `' WHERE '` and the conjuncts joined by `' AND '`, search first, then predicates in insertion order |
| Queries.AnyDropsLastClosingQuote | src/Query.php:469-478 | in a `where_any` group the five-character trim after the four-character `' OR '` also removes the closing quote of the last value |
| Queries.DegenerateFragments | src/Query.php:447-489 | an empty `IN` / `NOT IN` list yields `` `c` IN ) ``, and an empty `where_any` / `where_all` array trims back to ` )` |
| Queries.SearchWithoutFields | src/Query.php:395-403 | a non-empty search with no searchable fields leaves ` A)`, whatever the predicates |
| Queries.SearchWithoutFieldsOrPredicates | src/Query.php:395-495 | a non-empty search with neither searchable fields nor predicates leaves a bare ` WHERE ` |
| Queries.FragmentsSnoc | src/Query.php:406-490 | a predicate added last renders after all the earlier ones |
| Queries.FragmentsAppend | src/Query.php:406-490 | predicates added later render after the earlier ones, which keep their text |
| Queries.DefaultQuery | src/Query.php:493-521 | with the default state and a primary key set, the query is ``SELECT * FROM `T` ORDER BY `pk` ASC`` |
| Queries.CountIgnoresOrderAndPaging | src/Query.php:516-518 | the count query depends only on the search and the predicates, not on sort column, direction, limit or offset |
| Queries.PagingClauses | src/Query.php:506-514 | LIMIT / OFFSET are emitted exactly when positive, and their digits read back as the value |
| Models.PrimaryKey | src/BaseModel.php:17-20 | the key column is `id` exactly for a plain `BaseModel` subclass; `Page` inherits `ID` from `Post` |
| Models.SearchableFields | src/Model/Post.php:248-251 | a plain subclass searches its own fields; each WordPress model searches at least one column, and `Page` searches the `Post` columns |
| Models.Table | src/Model/Post.php:236-241 | `Post` and `Page` use the posts table, `Comment` the comments table, `User` the users table, and a plain subclass its own |
| Models.WordPressModelsAreConsistent | src/Model/Post.php:226-251 | each WordPress model declares its primary key, search columns and date columns as properties, and declares neither `meta` among them nor `id` |
| Models.PostFieldsAreConsistent | src/Model/Post.php:18-133 | `Post` declares `ID`, its search and date columns, and neither `meta` among them nor `id` |
| Models.CommentFieldsAreConsistent | src/Model/Comment.php:18-93 | `Comment` declares `comment_ID`, its search and date columns, and neither `meta` among them nor `id` |
| Models.UserFieldsAreConsistent | src/Model/User.php:18-68 | `User` declares `ID`, its search and date columns, and neither `meta` among them nor `id` |
| Models.MaybeUnserialize | src/BaseModel.php:33 | a value is left unchanged unless it is a serialized string |
| Models.CoerceDates | src/Model/Post.php:152-166 | keeps the input's keys; exactly the date columns that are set become the `DateTime` they denote |
| Models.DistinctDateFields | src/Model/Comment.php:112-118 | the date columns of a class are listed once each |
| Models.MetaFromRows | src/Model/Post.php:144-150 | the metadata map has exactly the keys of the rows read |
| Models.MetaFromRowsTakesLast | src/Model/Post.php:147-149 | a key takes the unserialized value of the last row that carries it |
| Models.LoadMeta | src/Model/Post.php:147-149 | the metadata loop builds the map of the rows read |
| Models.LoadModelMeta | src/Model/User.php:79-85 | metadata is read only when the class has it and the input sets the key |
| Models.MetaLoadedOnlyWithKey | src/Model/Comment.php:104-110 | without the key set (or for a plain `BaseModel`) the metadata map is empty; otherwise its keys are those of the rows read |
| Models.AssignProperties | src/BaseModel.php:29-34 | every property named by the input takes its `maybe_unserialize`d value; the others keep theirs; no property is added |
| Models.InitialProps | src/Model/Post.php:152-168 | date coercion followed by the base assignment gives the constructed properties |
| Models.ConstructorKeepsDeclared | src/BaseModel.php:27-35 | the constructed properties are exactly the declared ones: set date columns become `DateTime`, every other given one (a date column given as null included) is unserialized, the rest keep their defaults |
| Models.ConstructedKeys | src/BaseModel.php:29-30 | the constructed property names are the declared ones, `meta` excluded |
| Models.ConstructorIgnoresUndeclared | src/BaseModel.php:29-34 | inputs that agree on the declared properties construct the same model: undeclared keys are dropped silently |
| Models.Model.constructor | src/BaseModel.php:27-35 | the new model's properties and metadata are the constructed ones, and its invariant holds |
| Models.Accessor | src/BaseModel.php:47-49 | a property name is found exactly when the method name starts with the four-character prefix, and it is the rest of the name |
| Models.SetPlainProperty | src/BaseModel.php:61-63 | setting a property other than `meta` changes that one reported property and keeps the property names |
| Models.SetMetaProperty | src/BaseModel.php:61-63 | for a WordPress model, setting `meta` to an array changes the reported properties only in their `meta` entry |
| Models.Model.Properties | src/BaseModel.php:114-117 | the reported properties are the declared ones plus `meta` for the WordPress models, with their current values |
| Models.Model.PrimaryKeyValue | src/BaseModel.php:72-75 | the value of the key property, or null when the model does not have it |
| Models.Model.Call | src/BaseModel.php:44-65 | `get_X` returns property X when it exists (else null); `set_X` assigns its first argument to property X when it exists and leaves every other property as it was |
| Models.FlattenValue | src/BaseModel.php:95-102 | a `DateTime` becomes its `Y-m-d H:i:s` text, an array its serialization, and any other value passes through; the result is null exactly when the input was |
| Models.Flattened | src/Model/Post.php:214-219 | the row has every property except `meta` for the WordPress models, each value flattened as `FlattenValue` says, so no `DateTime` or array is left |
| Models.FlattenUndoesConstruction | src/BaseModel.php:27-106 | constructing a model from a row and flattening it gives back the row's value for every declared column that is not a date column and holds neither an array nor serialized text |
| Models.FlattenProps | src/BaseModel.php:93-106 | the flattening loop produces the flattened row |
| Models.SaveInsertsExactlyWhenKeyIsNull | src/BaseModel.php:126-143 | `save` inserts exactly when the key is null or unset, otherwise updates the row selected by the key's value; the row's columns are exactly the model's properties, so a WordPress model's `meta` array is not among them while a plain subclass's declared `meta` property is |
| Models.SaveReturnsId | src/BaseModel.php:145 | the `id` that `save` returns is null for the WordPress models and the primary key for a class keyed by `id` |
| Models.Model.Save | src/BaseModel.php:126-146 | issues the write `SaveWrite` describes, stores the insert id as key on insert, leaves the metadata alone and returns the `id` property |
| Models.DeleteWrite | src/BaseModel.php:164-169 | `delete` targets the model's table and selects the row with the same key condition as `save`'s update |
| Models.Model.Delete | src/BaseModel.php:164-169 | the deletion a model issues is the one `DeleteWrite` describes for its properties |
| Models.FindOneByQuotesSingly | src/BaseModel.php:183-189 | `find_one_by` selects from the model's table with the same backtick-quoted, escaped equality the builder's `where` renders, but between single quotes where the builder uses double quotes |
| Models.FindOneBy | src/BaseModel.php:178-193 | a missing or empty row gives no model; otherwise a new model built from the row |
| Models.FindOne | src/BaseModel.php:201-204 | looks the id up, as an integer, in the primary key column: a model exists exactly when that row does and is not empty, and it is the fresh model constructed from that row, properties and metadata |
| Models.NewQuery | src/BaseModel.php:211-218 | a fresh builder for the model's table, with its searchable fields and primary key, sorted by that key |
| Models.PageTypeText | src/Model/Page.php:25 | the predicate `Page::query` adds renders as `` AND `post_type` = "page" `` |
| Models.PageQueryWhere | src/Model/Page.php:22-28 | a fresh `Page` query has the WHERE clause `` `post_type` = "page" `` |
| Models.ModelQueryComposes | src/Model/Page.php:22-28 | a fresh model query selects the whole table ordered by the primary key ascending; for `Page` it is restricted to pages |
| Models.PagePredicatesFollow | src/Model/Page.php:24-27 | predicates added to a `Page` query follow its `post_type` predicate, in call order |
| Models.Model.GetMetadata | src/Model/Post.php:178-181 | the stored metadata value, or null when the key is absent; the default is not used |
| Models.Model.UpdateMetadata | src/Model/Post.php:189-194 | stores the value under the key, keeps the properties, and issues `update_post_meta` for the model's key |
| Models.Model.DeleteMetadata | src/Model/Post.php:201-206 | removes the key, keeps the properties, and issues `delete_post_meta` for the model's key |
| Models.UpdateThenRead | src/Model/Post.php:178-194 | on a model, `update_metadata(k, v)` then `get_metadata(k)` gives `v`; the properties and the other keys read as before |
| Models.DeleteThenRead | src/Model/Post.php:178-206 | on a model, `delete_metadata(k)` then `get_metadata(k)` gives null; the properties and the other keys read as before |
| ListTables.ToArray | src/Admin/ListTable.php:576 | the array cast keeps arrays, turns null into the empty array and any other value into a one-element list |
| ListTables.CeilDiv | src/Admin/ListTable.php:106 | the page count is the least number of pages of the given size that hold all items |
| ListTables.PaginationArgs | src/Admin/ListTable.php:97-115 | total items, total pages and page size default to 0; a missing page count with a positive page size becomes the ceiling of items over size; other arguments are kept |
| ListTables.ListTable.SetPaginationArgs | src/Admin/ListTable.php:97-116 | stores the completed pagination arguments |
| ListTables.PageNum | src/Admin/ListTable.php:422-431 | the page is at least 1; a requested page beyond a stored page count is clamped to `max(1, total_pages)`; otherwise it is the absolute requested page, or 1 |
| ListTables.ListTable.GetPagenum | src/Admin/ListTable.php:422-431 | the current page is `PageNum` of the stored pagination arguments and the request: at least 1 and within the stored page count |
| ListTables.CurrentPageHoldsItems | src/Admin/ListTable.php:105-107 | with a derived page count and at least one item, the current page starts at an item that exists |
| ListTables.ListTable.GetPaginationArg | src/Admin/ListTable.php:124-133 | `'page'` gives the integer `GetPagenum` computes, which is at least 1; another key gives the stored argument, or null when it is not stored |
| ListTables.ListTable.HasItems | src/Admin/ListTable.php:140-143 | true exactly when there is at least one item |
| ListTables.CurrentAction | src/Admin/ListTable.php:287-298 | the top action when chosen, else the bottom one when chosen, else none; `-1` is never returned |
| ListTables.ListTable.BulkActions | src/Admin/ListTable.php:253-265 | the first call caches the actions and uses no suffix; later calls keep the cache and use the suffix `2`; nothing is shown when there are no actions |
| ListTables.RowActionsText | src/Admin/ListTable.php:307-327 | the row-action text is empty exactly when there are no actions |
| ListTables.RowActions | src/Admin/ListTable.php:307-327 | the counting loop produces the row-action text |
| ListTables.SpanRunBeforeLast | src/Admin/ListTable.php:318-322 | every span before the last carries the vertical-bar separator |
| ListTables.RowActionsLayout | src/Admin/ListTable.php:316-324 | one span per action in order, the vertical-bar separator after every link but the last, inside the `row-actions` (or `row-actions-visible`) div |
| ListTables.SortableEntry | src/Admin/ListTable.php:576-582 | a kept sortable entry is an array whose element 1 is set: its own when set, false otherwise; its other elements are kept |
| ListTables.Sortable | src/Admin/ListTable.php:571-583 | empty sortable entries are skipped, the others are kept under their column, each one normalised as `SortableEntry` says |
| ListTables.NormaliseSortable | src/Admin/ListTable.php:571-583 | the loop over the declared sortable columns produces the normalised map |
| ListTables.ListTable.GetColumnInfo | src/Admin/ListTable.php:560-588 | the first call computes and caches columns, hidden columns and normalised sortable columns; later calls return the cache |
| ListTables.ColumnsSplit | src/Admin/ListTable.php:599-600 | the columns split into the visible ones and the hidden ones |
| ListTables.ColumnCount | src/Admin/ListTable.php:595-601 | the count is the number of columns not hidden under a non-empty name |
| ListTables.ListTable.GetColumnCount | src/Admin/ListTable.php:595-601 | the count of visible columns of the (possibly cached) column info |
| ListTables.CurrentOrder | src/Admin/ListTable.php:621-625 | the current order is `desc` exactly when the request says `desc`, and `asc` otherwise |
| ListTables.ColumnSortLink | src/Admin/ListTable.php:651-662 | the sorted column links to the opposite order with classes `sorted` and the current order; other columns link to `desc` exactly when descending comes first, with classes `sortable` and then `asc` when the link is to `desc`, `desc` otherwise |
| ListTables.SortToggleReturns | src/Admin/ListTable.php:654-657 | following the sorted column's link twice returns to the starting order |
| ListTables.ListTable.constructor | src/Admin/ListTable.php:15-43 | a new table has its items, no pagination arguments, no cached actions or column info, and an empty row class |
| ListTables.ListTable.SingleRow | src/Admin/ListTable.php:780-788 | each row toggles the class between ` class="alternate"` and nothing and carries the new value |
| ListTables.ListTable.DisplayRows | src/Admin/ListTable.php:768-773 | one row per item, in order; row i carries the class after i + 1 toggles |
| ListTables.RowClassesAlternate | src/Admin/ListTable.php:782-783 | from the initial empty class, odd rows are shaded and even rows are not |

## Left out

- The database and WordPress are collaborators. `find`, `total_count`, `all` and the `$wpdb` calls do not run; `save` and `delete` return the write they would issue.
- `esc_sql`, `maybe_unserialize`'s decoding, `serialize`, the `DateTime` constructor and format are uninterpreted. So are `get_results`, `get_row` and the table names.
- `update_X_meta` and `delete_X_meta` are returned as `MetaWrite` values.
- The `wporm_query` and `wporm_count_query` filters are the identity. The filters on bulk actions and sortable columns are folded into the values passed in.
- Integer casts are not modelled: `limit`, `offset` and `find_one` take integers, and `paged` is already an integer. PHP's float result of `ceil` is an integer here.
- An unparseable date makes `DateTime` throw. That failure is not modelled.
- PHP arrays with numeric keys and insertion order are maps, except where order reaches the output: predicates, value lists and row actions are sequences. Order also reaches the saved row through `serialize` of an array property; `serialize` is uninterpreted here and takes the map.
- Models.Model.Call: `set_meta` with a non-array argument leaves `meta` unchanged. In PHP it would store the non-array value.
- An input key `meta` given to the constructor is not modelled. In PHP it overwrites the loaded metadata, because `get_object_vars` lists `meta` among the properties.
- Models.Model.Call: a setter without arguments assigns null. PHP also raises a notice.
- Models.Model.GetMetadata: the notice PHP raises for a missing key is not modelled.
- `flatten_props` has a branch for `AbstractClass` values. No such class exists, so that branch never runs and is left out.
- Loose comparisons are approximations:
  - `current_action` compares with `-1` by the exact text `-1`.
  - The sort column is compared by its string form. PHP's `==` would also match numeric spellings such as `01`.
  - `array_intersect` in `get_column_count` is exact string equality.
- ListTables.ListTable.SingleRow: the row class is a static in PHP and is shared by every table. Here it is a field of each table.
- The redirect in `set_pagination_args` is left out. So are all HTML output, the screen and hook registration in the `ListTable` constructor, and the per-page user option.
- `src/Admin/AdminHelper.php`, the views, `src/ModelInterface.php` and `wp-orm.php` are not part of this model.
- The `Query` constructor stores the model class. Here it stores the table that `$model::get_table()` yields.
- `where_in` and `where_not_in` accept an empty array; the query then holds `` `c` IN ) ``, as `Queries.DegenerateFragments` states.
- A negative limit or offset is stored as given and left out of the SQL, as `Queries.PagingClauses` states.
- LIKE wildcards (`%`, `_`) in the search term are not escaped; only `esc_sql` is applied.
- A `BaseModel` subclass that overrides `get_primary_key` or gives its properties default values is not covered: a `Custom` kind is keyed by `id` and its properties start as null.
- Interpolating a `DateTime` key into the metadata SELECT raises an error in PHP; here `Interpolate` gives the empty text for it.
