# DB_Helper, modelled in Dafny

`DB_Helper` is a PHP trait for CodeIgniter models that assembles SQL text
piece by piece. It keeps eight accumulators: filters, joins, fields, tables,
the column => value map, offset, limit and order terms. The `add*` and
`set*` operations fill them. The `build*` and `get*` operations render one
SQL fragment and clear the accumulator it came from. `buildQuery` glues the
SELECT, JOIN, WHERE, ORDER BY, OFFSET and LIMIT fragments together with
single spaces. A pure translator turns human-readable filter conditions
("contains", "is between", "is in", ...) into a SQL operand and an escaped
value. A whitelist says which of those conditions suit timestamp columns.

The model has these modules:

- `Outcomes` (outcomes.dfy): `Option`, `Result` and `Outcome`. Each
  exception the trait throws is one `Error` constructor.
- `Text` (text.dfy): the PHP string primitives the trait relies on:
  - truthiness;
  - `strtolower`, as ASCII lower-casing;
  - `implode`;
  - the byte-wise order `sort` uses;
  - the decimal form of an integer interpolated into a string.
- `ValueMap` (value_map.dfy): the insertion-ordered `$values` array. It is a
  sequence of (column, literal) pairs with unique columns.
- `Conditions` (conditions.dfy): `convertConditionToOperand` and
  `validateTimestampOperand`, as pure functions with lemmas.
- `Clauses` (clauses.dfy): the text every renderer produces, as pure
  functions, and lemmas about that text.
- `SqlBuilder` (db_helper.dfy): the trait itself, as `class DbHelper`. Its
  eight mutable fields are the accumulators. Each method that changes them
  states its result and its whole new state through `State()`, a snapshot
  of the accumulators, e.g. `State() == old(State()).(filters := [])`. Each
  method also keeps `Valid()`, which says the value map holds no column
  twice.

The database driver is a `Driver` value. It holds two arbitrary string
functions, `escape` and `escape_str`. Nothing is assumed about what they do
to a string. On an array, `escape_str` is taken to escape each element and
return an array, as CodeIgniter's driver does. A pattern condition on an
array therefore embeds PHP's rendering "Array". A plain comparison on an
array is refused (`EscapedText` and `Compare` in conditions.dfy).

Behaviour kept exactly as the code has it:

- **The guards of INSERT and UPDATE.** Each is kept as written, with PHP's
  precedence:
  - The INSERT guard is an OR: exactly one table, or a non-empty value map,
    or both. So one table with no values passes, and so do values with no
    table or with several tables.
  - UPDATE needs a table OR values.
  - Reading `$this->tables[0]` from an empty list gives PHP's null, which
    renders as the empty string. `FirstTable` models it that way.
  - `UpdateGuardIsPermissive` and `InsertGuardIsPermissive` exhibit the
    consequences: "UPDATE t SET " with no assignments, "UPDATE  SET ..."
    with no table, and "INSERT INTO t () VALUES ()".
- **addTableDataFilter escapes twice.** The translated value goes through
  addFilter, which escapes it again and quotes it. IS, IS NOT, IN and
  BETWEEN values pass through verbatim. So does a comparison or pattern value
  whose escaped form lower-cases to "null": "equals" with the value NULL
  stores `f = NULL` unquoted (`TableDataFilterEscapesTwice`).
- **Quoted comparison values.** addFilter quotes the value of a plain
  comparison, so the example query renders `age > '30'` (`EndToEndQuery`).
- **Offset and limit reset differently.** `getOffset` sets the offset back
  to 0. `resetOffset` sets it to null. `getLimit` sets the limit to null.
  Offset starts at 0 and limit at null.

## Model

| member | source | states |
|---|---|---|
| Text.Lower | ci_db_helper/ci_db_helper.php:155 | strtolower keeps the length, lower-cases every character in place and leaves no upper-case letter |
| Text.LowerIsOr | ci_db_helper/ci_db_helper.php:186-192 | a string lower-cases to "or" exactly when it is one of the four spellings of "or" |
| Text.JoinSnoc | ci_db_helper/ci_db_helper.php:195 | implode keeps list order: appending a part to a non-empty list appends the separator and that part |
| Text.StrLeTotal | ci_db_helper/ci_db_helper.php:342 | any two strings are comparable in the order sort uses |
| Text.StrLeAntisymmetric | ci_db_helper/ci_db_helper.php:342 | two strings each at most the other are equal |
| Text.StrLeTransitive | ci_db_helper/ci_db_helper.php:342 | the sort order is transitive |
| Text.NatToString | ci_db_helper/ci_db_helper.php:255 | the digits of a number are non-empty, all decimal digits, with no leading zero unless the number is 0 |
| Text.IntToString | ci_db_helper/ci_db_helper.php:279 | an interpolated integer is non-empty and starts with '-' exactly when negative |
| Text.NatToStringRoundTrip | ci_db_helper/ci_db_helper.php:255 | the digits of a natural number read back as that number |
| Text.IntToStringRoundTrip | ci_db_helper/ci_db_helper.php:279 | an interpolated integer reads back as the same integer |
| ValueMap.ColumnsAlignWithLiterals | ci_db_helper/ci_db_helper.php:64-65 | array_keys and the value list have the map's length, and the i-th key and i-th value form the i-th entry |
| ValueMap.LookupColumnAt | ci_db_helper/ci_db_helper.php:27 | with unique keys, looking up the i-th key gives the i-th value |
| ValueMap.PutLookup | ci_db_helper/ci_db_helper.php:27 | after $values[column] = v the column holds v and every other column keeps its value |
| ValueMap.PutColumns | ci_db_helper/ci_db_helper.php:27 | re-assigning a column keeps the key order; a new column is appended last |
| ValueMap.ColumnsMembership | ci_db_helper/ci_db_helper.php:27 | a column is among the keys exactly when some entry carries it |
| ValueMap.PutKeepsUnique | ci_db_helper/ci_db_helper.php:27 | an assignment keeps the keys unique |
| ValueMap.PutAllKeepsUnique | ci_db_helper/ci_db_helper.php:26-28 | a whole foreach of assignments keeps the keys unique |
| Conditions.SortPair | ci_db_helper/ci_db_helper.php:342 | sort of two values returns the same two values, the smaller first |
| Conditions.ConditionToOperand | ci_db_helper/ci_db_helper.php:288-368 | the unknown-condition error occurs exactly for names outside the 18 known ones, and every success carries one of the ten SQL operands |
| Conditions.PatternConditionsWrapInWildcards | ci_db_helper/ci_db_helper.php:293-330 | contains, does not contain, begins with and ends with give ILIKE or NOT LIKE with the escaped value wrapped in % on the named sides |
| Conditions.ComparisonConditionsEscapeValue | ci_db_helper/ci_db_helper.php:301-322 | the ten comparison names give =, !=, > or < as named, with the escaped value; an array value is refused |
| Conditions.NullConditionsIgnoreValue | ci_db_helper/ci_db_helper.php:331-338 | is null and is not null give IS and IS NOT with NULL, whatever the value |
| Conditions.BetweenOrdersItsBounds | ci_db_helper/ci_db_helper.php:340-348 | is between gives the same BETWEEN 'lo' AND 'hi' for either order of a pair, and fails for anything but a two-element array |
| Conditions.InQuotesEveryElement | ci_db_helper/ci_db_helper.php:350-359 | is in succeeds exactly for a non-empty array, quoting every escaped element in input order |
| Conditions.ValidateTimestampOperand | ci_db_helper/ci_db_helper.php:433-456 | returns the name unchanged exactly for the known conditions that do not pattern-match, and otherwise fails naming the operand |
| Conditions.TimestampOperandsAreConditions | ci_db_helper/ci_db_helper.php:433-456 | every name accepted for timestamps is one the translator recognises |
| Clauses.Connective | ci_db_helper/ci_db_helper.php:184-192 | the connective is OR exactly for the four spellings of "or", and AND otherwise |
| Clauses.WhereClauseInOrder | ci_db_helper/ci_db_helper.php:194-197 | one filter renders as "WHERE f"; appending a filter appends the connective and the filter |
| Clauses.InsertColumnsMatchValues | ci_db_helper/ci_db_helper.php:64-65 | the i-th INSERT column receives the value the map stores for it |
| Clauses.UpdateGuardIsPermissive | ci_db_helper/ci_db_helper.php:43-44 | the UPDATE guard is "tables or values", admitting "UPDATE t SET " and an empty table name |
| Clauses.InsertGuardIsPermissive | ci_db_helper/ci_db_helper.php:62-65 | the INSERT guard is "one table or values", admitting empty lists and using only the first of several tables |
| Clauses.PaginationRendersStoredNumber | ci_db_helper/ci_db_helper.php:252-285 | OFFSET and LIMIT render the stored integer, readable back, and nothing when it is 0 or null |
| Clauses.LowerKeywords | ci_db_helper/ci_db_helper.php:155 | NULL, IN and BETWEEN lower-case to the keywords addFilter tests for |
| Clauses.QuotedOperands | ci_db_helper/ci_db_helper.php:155 | no comparison or pattern operand lower-cases to "in" or "between" |
| Clauses.TableDataFilterNull | ci_db_helper/ci_db_helper.php:482-490 | is null and is not null store "field IS NULL" and "field IS NOT NULL" unquoted |
| Clauses.TableDataFilterVerbatim | ci_db_helper/ci_db_helper.php:482-490 | is between and is in store the translated value verbatim |
| Clauses.TableDataFilterEscapesTwice | ci_db_helper/ci_db_helper.php:482-490 | comparison and pattern conditions store the translated value escaped a second time and quoted, unless it reads "null" |
| SqlBuilder.DbHelper.constructor | ci_db_helper/ci_db_helper.php:10-18 | all lists and the value map start empty, offset at 0, limit at null |
| SqlBuilder.DbHelper.AddValue | ci_db_helper/ci_db_helper.php:21-32 | an array assigns every escaped value to its column in order, keeping keys unique; anything else fails and changes nothing |
| SqlBuilder.DbHelper.ResetValues | ci_db_helper/ci_db_helper.php:35-38 | empties the value map and nothing else |
| SqlBuilder.DbHelper.BuildUpdateStatement | ci_db_helper/ci_db_helper.php:41-57 | under the guard, renders the UPDATE of the first table and clears values and tables; otherwise fails with no change |
| SqlBuilder.DbHelper.BuildInsertStatement | ci_db_helper/ci_db_helper.php:60-73 | under the guard, renders the INSERT with aligned column and value lists and clears values and tables; otherwise fails with no change |
| SqlBuilder.DbHelper.AddField | ci_db_helper/ci_db_helper.php:76-83 | appends a string or every string of an array to fields; anything else is ignored |
| SqlBuilder.DbHelper.ResetFields | ci_db_helper/ci_db_helper.php:86-89 | empties fields and nothing else |
| SqlBuilder.DbHelper.AddTable | ci_db_helper/ci_db_helper.php:92-99 | appends a string or every string of an array to tables; anything else is ignored |
| SqlBuilder.DbHelper.ResetTables | ci_db_helper/ci_db_helper.php:102-105 | empties tables and nothing else |
| SqlBuilder.DbHelper.BuildSelectStatement | ci_db_helper/ci_db_helper.php:108-120 | with tables, renders SELECT of the fields (or *) FROM the tables and clears only those two; without, fails with no change |
| SqlBuilder.DbHelper.AddJoin | ci_db_helper/ci_db_helper.php:123-130 | appends "type table ON condition" exactly when both are truthy; otherwise fails with no change |
| SqlBuilder.DbHelper.ResetJoins | ci_db_helper/ci_db_helper.php:133-136 | empties joins and nothing else |
| SqlBuilder.DbHelper.BuildJoinStatement | ci_db_helper/ci_db_helper.php:139-148 | returns the joins separated by spaces ("" if none) and clears only joins |
| SqlBuilder.DbHelper.AddFilter | ci_db_helper/ci_db_helper.php:151-165 | appends "field clause value", quoting and escaping the value unless it is null or the clause IN or BETWEEN; fails with no change on a falsy field or clause or a null value |
| SqlBuilder.DbHelper.AddCustomFilter | ci_db_helper/ci_db_helper.php:168-175 | appends a truthy statement as it is; otherwise fails with no change |
| SqlBuilder.DbHelper.ResetFilters | ci_db_helper/ci_db_helper.php:178-181 | empties filters and nothing else |
| SqlBuilder.DbHelper.BuildWhereClause | ci_db_helper/ci_db_helper.php:184-201 | returns the WHERE clause of the filters with the normalised connective ("" if none) and clears only filters |
| SqlBuilder.DbHelper.AddOrderBy | ci_db_helper/ci_db_helper.php:204-219 | appends "field DIRECTION" for a truthy field, with DESC, ASC or nothing; otherwise no change |
| SqlBuilder.DbHelper.ResetOrderBy | ci_db_helper/ci_db_helper.php:222-225 | empties the order terms and nothing else |
| SqlBuilder.DbHelper.GetOrderBy | ci_db_helper/ci_db_helper.php:228-237 | returns ORDER BY and the terms ("" if none) and clears only the order terms |
| SqlBuilder.DbHelper.SetOffset | ci_db_helper/ci_db_helper.php:240-243 | stores the offset and nothing else |
| SqlBuilder.DbHelper.ResetOffset | ci_db_helper/ci_db_helper.php:246-249 | sets the offset to null and nothing else |
| SqlBuilder.DbHelper.GetOffset | ci_db_helper/ci_db_helper.php:252-261 | renders a non-zero offset once and sets it to 0, so the next call renders ""; a zero or null offset renders "" and changes nothing |
| SqlBuilder.DbHelper.SetLimit | ci_db_helper/ci_db_helper.php:264-267 | stores the limit and nothing else |
| SqlBuilder.DbHelper.ResetLimit | ci_db_helper/ci_db_helper.php:270-273 | sets the limit to null and nothing else |
| SqlBuilder.DbHelper.GetLimit | ci_db_helper/ci_db_helper.php:276-285 | renders a non-zero limit once and sets it to null, so the next call renders ""; a zero or null limit renders "" and changes nothing |
| SqlBuilder.DbHelper.ConvertConditionToOperand | ci_db_helper/ci_db_helper.php:288-368 | the translation with the driver's escape_str, the is in list built by a loop, agrees with ConditionToOperand |
| SqlBuilder.DbHelper.QuickInsert | ci_db_helper/ci_db_helper.php:371-379 | the statement sent to the database is the INSERT buildInsertStatement renders |
| SqlBuilder.DbHelper.QuickUpdate | ci_db_helper/ci_db_helper.php:382-393 | the statement sent is the UPDATE, a space and the WHERE clause, clearing values, tables and filters; a failing UPDATE changes nothing |
| SqlBuilder.DbHelper.BuildQuery | ci_db_helper/ci_db_helper.php:417-430 | returns the six fragments joined by single spaces and leaves fields, tables, joins, filters and order terms empty, a rendered offset back at 0, a rendered limit null and the values untouched; without tables fails with no change |
| SqlBuilder.DbHelper.QuickSelect | ci_db_helper/ci_db_helper.php:396-414 | the statement sent is the one buildQuery renders, with the same new state: five lists empty, a rendered offset back to 0, a rendered limit null, the values untouched |
| SqlBuilder.DbHelper.AddTableDataFilter | ci_db_helper/ci_db_helper.php:482-490 | fails with no change on a null field or condition or a refused translation; otherwise adds the translated operand and value through addFilter |
| SqlBuilder.DbHelper.PrepareJoins | ci_db_helper/ci_db_helper.php:493-498 | succeeds exactly when every pair is joinable, adding LEFT JOINs in order; otherwise keeps the joins before the first refused pair and fails |
| SqlBuilder.EndToEndFilter | ci_db_helper/ci_db_helper.php:151-165 | addFilter stores the filter age > 30 as age > '30', quoted |
| SqlBuilder.EndToEndOrder | ci_db_helper/ci_db_helper.php:204-219 | addOrderBy stores the order name desc as the term name DESC |
| SqlBuilder.EndToEndSelect | ci_db_helper/ci_db_helper.php:108-120 | fields id, name from users render as SELECT id, name FROM users |
| SqlBuilder.EndToEndClauses | ci_db_helper/ci_db_helper.php:184-285 | the filter renders as WHERE age > '30', the order term as ORDER BY name DESC, and limit 5 as LIMIT 5 |
| SqlBuilder.EndToEndJoined | ci_db_helper/ci_db_helper.php:417-430 | buildQuery's assembly of the example's select, filter, order term, offset 0 and limit 5 gives the full statement, with a double space for each empty fragment |
| SqlBuilder.EndToEndQuery | ci_db_helper/ci_db_helper.php:417-430 | fields id, name, table users, filter age > 30, order name desc and limit 5 build exactly SELECT id, name FROM users  WHERE age > '30' ORDER BY name DESC  LIMIT 5 |

## Left out

- `validateTimestamp`: it relies on PHP's free-form `strtotime` parser and
  the timezone-dependent `date`. Both are foreign library calls, so the
  function is not part of this model.
- The database round trip of `quickInsert`, `quickUpdate` and `quickSelect`:
  `$db->query(...)` and `->result()` are database I/O. The model stops at
  the SQL string each one sends.
- `sd_curl/sd_curl.php`: a network wrapper over libcurl, not part of this
  model.
- The real behaviour of the driver's `escape` and `escape_str`: the
  CodeIgniter driver is not part of this model. Both are arbitrary
  functions. On an array, `escape_str` is taken to escape each element and
  return an array, as CodeIgniter's driver does. So pattern conditions on
  an array embed "Array", and the plain comparisons refuse an array.
- Conditions.SortPair: PHP's `sort` compares numeric strings as numbers.
  The model uses the byte-wise string order for every pair.
- `intval` coercion in `setOffset` and `setLimit`: the model takes integers.
- The key handling of `array_merge` in `addField` and `addTable`: renumbering
  and string keys overwriting each other. Both are modelled as list append.
- PHP array keys in `addValue` and `prepareJoins`: the pairs are given as a
  sequence. Integer keys and PHP's string-to-integer key coercion are not
  modelled.
- The notice PHP raises when reading `$this->tables[0]` from an empty list.
  The model renders the empty table name and raises nothing.
- Values of types other than string: field names, values and conditions are
  strings. A null `addFilter` value is `None`. `addFilter` is reached from
  `addTableDataFilter` only with a string, because the translator always
  produces one.
- Integer width: offsets and limits are unbounded integers. PHP's
  platform integer range is not modelled.
