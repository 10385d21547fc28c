/** The SQL text each renderer of the helper produces from its accumulators,
    as pure functions, and what is proved about that text. */
module Clauses {
  import opened Outcomes
  import opened Text
  import opened ValueMap
  import opened Conditions

  /** $this->tables[0]. On an empty table list PHP reads null, which a
      string concatenation renders as "" (after a notice). */
  function FirstTable(tables: seq<string>): string {
    if tables == [] then "" else tables[0]
  }

  /** The guard of buildUpdateStatement exactly as written; `&&` binds
      tighter than `||`. */
  predicate UpdateGuard(tables: seq<string>, values: Pairs) {
    (tables != [] && |tables| >= 1) || values != []
  }

  /** The guard of buildInsertStatement exactly as written. */
  predicate InsertGuard(tables: seq<string>, values: Pairs) {
    (tables != [] && |tables| == 1) || values != []
  }

  /** The "column = value" pairs of an UPDATE, in map order. */
  function Assignments(values: Pairs): seq<string> {
    seq(|values|, i requires 0 <= i < |values| => values[i].0 + " = " + values[i].1)
  }

  function UpdateStatement(tables: seq<string>, values: Pairs): string {
    "UPDATE " + FirstTable(tables) + " SET " + Join(", ", Assignments(values))
  }

  function InsertStatement(tables: seq<string>, values: Pairs): string {
    "INSERT INTO " + FirstTable(tables)
      + " (" + Join(", ", Columns(values)) + ") VALUES (" + Join(", ", Literals(values)) + ")"
  }

  /** The SELECT list: the fields, or "*" when none were added. */
  function SelectList(fields: seq<string>): seq<string> {
    if fields == [] then ["*"] else fields
  }

  function SelectStatement(fields: seq<string>, tables: seq<string>): string {
    "SELECT " + Join(", ", SelectList(fields)) + " FROM " + Join(", ", tables)
  }

  /** One join clause as addJoin stores it. */
  function JoinText(table: string, condition: string, joinType: string): string {
    joinType + " " + table + " ON " + condition
  }

  function JoinStatement(joins: seq<string>): string {
    Join(" ", joins)
  }

  /** The WHERE connective: OR for exactly the four spellings of "or",
      AND for anything else. */
  function Connective(logic: string): (r: string)
    ensures r == "OR" <==> logic in {"or", "oR", "Or", "OR"}
    ensures r == "OR" || r == "AND"
  {
    LowerIsOr(logic);
    if Lower(logic) == "or" then "OR" else "AND"
  }

  function WhereClause(filters: seq<string>, logic: string): string {
    if filters == [] then "" else "WHERE " + Join(" " + Connective(logic) + " ", filters)
  }

  /** addFilter keeps the value as given when it reads "null" in any case or
      the clause is IN or BETWEEN in any case. */
  predicate KeepsValueVerbatim(value: string, clause: string) {
    Lower(value) == "null" || Lower(clause) == "in" || Lower(clause) == "between"
  }

  /** The predicate addFilter stores. */
  function FilterText(escapeStr: string -> string, field: string, value: string, clause: string): string {
    field + " " + clause + " " + (if KeepsValueVerbatim(value, clause) then value else Quote(escapeStr, value))
  }

  /** The ORDER BY direction: DESC or ASC in any case, otherwise nothing. */
  function Direction(order: string): string {
    if Lower(order) == "desc" then "DESC" else if Lower(order) == "asc" then "ASC" else ""
  }

  function OrderByClause(orderBy: seq<string>): string {
    if orderBy == [] then "" else "ORDER BY " + Join(", ", orderBy)
  }

  /** PHP truthiness of the offset or limit: set and not zero. */
  predicate IsSet(n: Option<int>) {
    n.Some? && n.value != 0
  }

  function OffsetClause(offset: Option<int>): string {
    if IsSet(offset) then "OFFSET " + IntToString(offset.value) else ""
  }

  function LimitClause(limit: Option<int>): string {
    if IsSet(limit) then "LIMIT " + IntToString(limit.value) else ""
  }

  /** The six fragments of buildQuery, joined by single spaces. */
  function SelectQuery(select: string, joins: seq<string>, filters: seq<string>, logic: string,
                       orderBy: seq<string>, offset: Option<int>, limit: Option<int>): string
  {
    select + " " + JoinStatement(joins) + " " + WhereClause(filters, logic) + " "
      + OrderByClause(orderBy) + " " + OffsetClause(offset) + " " + LimitClause(limit)
  }

  /** The WHERE clause lists the filters in insertion order, each after the
      one connective; a single filter stands alone. */
  lemma WhereClauseInOrder(filters: seq<string>, f: string, logic: string)
    ensures WhereClause([f], logic) == "WHERE " + f
    ensures filters != [] ==>
      WhereClause(filters + [f], logic) == WhereClause(filters, logic) + " " + Connective(logic) + " " + f
  {
    if filters != [] {
      JoinSnoc(" " + Connective(logic) + " ", filters, f);
    }
  }

  /** The i-th column of an INSERT receives the literal the value map holds
      for that column. */
  lemma InsertColumnsMatchValues(values: Pairs)
    requires UniqueColumns(values)
    ensures |Columns(values)| == |Literals(values)| == |values|
    ensures forall i :: 0 <= i < |values| ==> Lookup(values, Columns(values)[i]) == Some(Literals(values)[i])
  {
    ColumnsAlignWithLiterals(values);
    forall i | 0 <= i < |values|
      ensures Lookup(values, Columns(values)[i]) == Some(Literals(values)[i])
    {
      LookupColumnAt(values, i);
    }
  }

  /** The UPDATE guard admits a table without values (a statement ending in
      "SET ") and values without a table (an empty table name). */
  lemma UpdateGuardIsPermissive(tables: seq<string>, values: Pairs, t: string)
    ensures UpdateGuard(tables, values) <==> tables != [] || values != []
    ensures UpdateGuard([t], []) && UpdateStatement([t], []) == "UPDATE " + t + " SET "
    ensures values != [] ==>
      (UpdateGuard([], values) && UpdateStatement([], values) == "UPDATE  SET " + Join(", ", Assignments(values)))
  {
  }

  /** The INSERT guard admits one table without values ("()" lists) and
      values with no table or several, of which only the first is used. */
  lemma InsertGuardIsPermissive(tables: seq<string>, values: Pairs, t: string)
    ensures InsertGuard(tables, values) <==> |tables| == 1 || values != []
    ensures InsertGuard([t], []) && InsertStatement([t], []) == "INSERT INTO " + t + " () VALUES ()"
    ensures values != [] ==>
      (InsertGuard(tables, values)
       && InsertStatement(tables, values) == InsertStatement(if tables == [] then [""] else [tables[0]], values))
  {
  }

  /** OFFSET and LIMIT render the stored number itself, and nothing when it
      is zero or null. */
  lemma PaginationRendersStoredNumber(offset: Option<int>, limit: Option<int>)
    ensures !IsSet(offset) ==> OffsetClause(offset) == ""
    ensures IsSet(offset) ==> var s := OffsetClause(offset);
      |s| > 7 && s[..7] == "OFFSET " && IsDecimal(s[7..]) && ParseInt(s[7..]) == offset.value
    ensures !IsSet(limit) ==> LimitClause(limit) == ""
    ensures IsSet(limit) ==> var s := LimitClause(limit);
      |s| > 6 && s[..6] == "LIMIT " && IsDecimal(s[6..]) && ParseInt(s[6..]) == limit.value
  {
    if IsSet(offset) {
      IntToStringRoundTrip(offset.value);
      assert OffsetClause(offset)[7..] == IntToString(offset.value);
    }
    if IsSet(limit) {
      IntToStringRoundTrip(limit.value);
      assert LimitClause(limit)[6..] == IntToString(limit.value);
    }
  }

  /** strtolower of the three keywords addFilter tests for. */
  lemma LowerKeywords()
    ensures Lower("NULL") == "null" && Lower("IN") == "in" && Lower("BETWEEN") == "between"
  {
    var n, i, b := Lower("NULL"), Lower("IN"), Lower("BETWEEN");
    assert n[0] == LowerChar('N') == 'n' && n[1] == LowerChar('U') == 'u';
    assert n[2] == n[3] == LowerChar('L') == 'l';
    assert i[0] == LowerChar('I') == 'i' && i[1] == LowerChar('N') == 'n';
    assert b[0] == LowerChar('B') == 'b' && b[1] == b[4] == LowerChar('E') == 'e';
    assert b[2] == LowerChar('T') == 't' && b[3] == LowerChar('W') == 'w';
    assert b[5] == LowerChar('E') == 'e' && b[6] == LowerChar('N') == 'n';
  }

  /** None of the six comparison and pattern operands is IN or BETWEEN in
      any case. */
  lemma QuotedOperands(operand: string)
    requires operand in {"ILIKE", "NOT LIKE", "=", "!=", ">", "<"}
    ensures Lower(operand) != "in" && Lower(operand) != "between"
  {
    if operand == "!=" {
      assert Lower(operand)[0] == '!';
    }
  }

  /** What addTableDataFilter stores for 'is null' and 'is not null': the
      bare NULL, unquoted. */
  lemma TableDataFilterNull(escapeStr: string -> string, field: string, condition: string, value: FilterValue)
    requires condition in {"is null", "is not null"}
    ensures var t := ConditionToOperand(escapeStr, condition, value).value;
      FilterText(escapeStr, field, t.value, t.operand) == field + " " + t.operand + " NULL"
  {
    LowerKeywords();
  }

  /** What addTableDataFilter stores for 'is between' and 'is in': the
      translated value, verbatim. */
  lemma TableDataFilterVerbatim(escapeStr: string -> string, field: string, condition: string, value: FilterValue)
    requires condition in {"is between", "is in"}
    requires ConditionToOperand(escapeStr, condition, value).Ok?
    ensures var t := ConditionToOperand(escapeStr, condition, value).value;
      FilterText(escapeStr, field, t.value, t.operand) == field + " " + t.operand + " " + t.value
  {
    LowerKeywords();
    var t := ConditionToOperand(escapeStr, condition, value).value;
    assert t.operand == if condition == "is between" then "BETWEEN" else "IN";
    assert KeepsValueVerbatim(t.value, t.operand);
  }

  /** What addTableDataFilter stores for every comparison and pattern
      condition: the translator's escaped value is escaped again and quoted
      by addFilter, unless it reads "null" in some case. */
  lemma TableDataFilterEscapesTwice(escapeStr: string -> string, field: string, condition: string, value: FilterValue)
    requires condition in ComparisonConditions + PatternConditions
    requires ConditionToOperand(escapeStr, condition, value).Ok?
    ensures var t := ConditionToOperand(escapeStr, condition, value).value;
      FilterText(escapeStr, field, t.value, t.operand)
        == field + " " + t.operand + " "
           + (if Lower(t.value) == "null" then t.value else "'" + escapeStr(t.value) + "'")
  {
    var t := ConditionToOperand(escapeStr, condition, value).value;
    assert t.operand in {"ILIKE", "NOT LIKE", "=", "!=", ">", "<"};
    QuotedOperands(t.operand);
  }
}
