/** The DB_Helper trait: eight accumulators that the add and set operations
    fill, and renderers that turn an accumulator into SQL text and clear it.
    Every throw of the trait is an Err or Fail result here; a failing
    operation changes nothing. */
module SqlBuilder {
  import opened Outcomes
  import opened Text
  import opened ValueMap
  import opened Conditions
  import opened Clauses

  /** The two services of the database driver the helper uses. Both are
      opaque: escape (for addValue) and escape_str (for filters). */
  datatype Driver = Driver(escape: string -> string, escapeStr: string -> string)

  /** The argument of addField/addTable: a string, an array of strings, or
      anything else (which is ignored). */
  datatype NameArg = Name(name: string) | Names(names: seq<string>) | NotName

  /** The argument of addValue: an array of column => value pairs, or not an array. */
  datatype PairsArg = PairsArray(pairs: Pairs) | NotArray

  /** The names a NameArg appends. */
  function Appended(arg: NameArg): seq<string> {
    match arg
    case Name(n) => [n]
    case Names(ns) => ns
    case NotName => []
  }

  /** addJoin accepts a table and a condition that are both truthy. */
  predicate Joinable(table: string, condition: string) {
    Truthy(table) && Truthy(condition)
  }

  /** Pair i is the first one addJoin refuses. */
  predicate FirstRefused(pairs: seq<(string, string)>, i: int) {
    0 <= i < |pairs| && !Joinable(pairs[i].0, pairs[i].1)
    && forall k :: 0 <= k < i ==> Joinable(pairs[k].0, pairs[k].1)
  }

  /** The clauses prepareJoins adds for a list of table => condition pairs. */
  function LeftJoins(pairs: seq<(string, string)>): seq<string> {
    seq(|pairs|, i requires 0 <= i < |pairs| => JoinText(pairs[i].0, pairs[i].1, "LEFT JOIN"))
  }

  /** A snapshot of the eight accumulators. */
  datatype Accumulators = Accumulators(
    filters: seq<string>,
    joins: seq<string>,
    fields: seq<string>,
    tables: seq<string>,
    values: Pairs,
    offset: Option<int>,
    limit: Option<int>,
    orderBy: seq<string>)

  class DbHelper {
    const db: Driver

    var filters: seq<string>   // predicates the WHERE clause is assembled from
    var joins: seq<string>     // JOIN clauses
    var fields: seq<string>    // fields that follow SELECT
    var tables: seq<string>    // tables that follow FROM
    var values: Pairs          // column => escaped value, for UPDATE and INSERT
    var offset: Option<int>    // None is PHP's null
    var limit: Option<int>
    var orderBy: seq<string>

    ghost function State(): Accumulators
      reads this
    {
      Accumulators(filters, joins, fields, tables, values, offset, limit, orderBy)
    }

    /** The value map never holds a column twice. */
    ghost predicate Valid()
      reads this
    {
      UniqueColumns(values)
    }

    /** The declared initial values: everything empty, offset 0, limit null. */
    constructor (db: Driver)
      ensures Valid() && this.db == db
      ensures State() == Accumulators([], [], [], [], [], Some(0), None, [])
    {
      this.db := db;
      filters, joins, fields, tables, values := [], [], [], [], [];
      offset, limit, orderBy := Some(0), None, [];
    }

    /** Escapes every value and assigns it to its column, in order. */
    method AddValue(pair: PairsArg) returns (r: Outcome)
      requires Valid()
      modifies this
      ensures Valid()
      ensures pair.NotArray? ==> r == Fail(ValuesNotArray) && State() == old(State())
      ensures pair.PairsArray? ==>
        r == Pass && State() == old(State()).(values := PutAll(old(values), pair.pairs, db.escape))
    {
      if pair.NotArray? {
        return Fail(ValuesNotArray);
      }
      var ps := pair.pairs;
      var i := 0;
      while i < |ps|
        invariant 0 <= i <= |ps|
        invariant Valid()
        invariant State() == old(State()).(values := values)
        invariant PutAll(values, ps[i..], db.escape) == PutAll(old(values), ps, db.escape)
      {
        PutKeepsUnique(values, ps[i].0, db.escape(ps[i].1));
        assert ps[i..][1..] == ps[i + 1..];
        values := Put(values, ps[i].0, db.escape(ps[i].1));
        i := i + 1;
      }
      r := Pass;
    }

    method ResetValues()
      requires Valid()
      modifies this
      ensures Valid()
      ensures State() == old(State()).(values := [])
    {
      values := [];
    }

    /** UPDATE of the first table with every column = value pair; the guard
        is the permissive one of the source (see UpdateGuard). */
    method BuildUpdateStatement() returns (r: Result<string>)
      requires Valid()
      modifies this
      ensures Valid()
      ensures UpdateGuard(old(tables), old(values)) ==>
        r == Ok(UpdateStatement(old(tables), old(values)))
        && State() == old(State()).(values := [], tables := [])
      ensures !UpdateGuard(old(tables), old(values)) ==>
        r == Err(UpdateTableError) && State() == old(State())
    {
      if (tables != [] && |tables| >= 1) || values != [] {
        var output := "UPDATE " + FirstTable(tables) + " SET ";
        var pairs: seq<string> := [];
        var i := 0;
        while i < |values|
          invariant 0 <= i <= |values|
          invariant |pairs| == i
          invariant forall k :: 0 <= k < i ==> pairs[k] == values[k].0 + " = " + values[k].1
        {
          pairs := pairs + [values[i].0 + " = " + values[i].1];
          i := i + 1;
        }
        assert pairs == Assignments(values);
        output := output + Join(", ", pairs);
        ResetValues();
        ResetTables();
        r := Ok(output);
      } else {
        r := Err(UpdateTableError);
      }
    }

    /** INSERT into the first table, columns and values read from the value
        map in the same order; the guard is the permissive one of the source. */
    method BuildInsertStatement() returns (r: Result<string>)
      requires Valid()
      modifies this
      ensures Valid()
      ensures InsertGuard(old(tables), old(values)) ==>
        r == Ok(InsertStatement(old(tables), old(values)))
        && State() == old(State()).(values := [], tables := [])
      ensures !InsertGuard(old(tables), old(values)) ==>
        r == Err(InsertTableError) && State() == old(State())
    {
      if (tables != [] && |tables| == 1) || values != [] {
        var output := "INSERT INTO " + FirstTable(tables)
          + " (" + Join(", ", Columns(values)) + ") VALUES (" + Join(", ", Literals(values)) + ")";
        ResetValues();
        ResetTables();
        r := Ok(output);
      } else {
        r := Err(InsertTableError);
      }
    }

    method AddField(arg: NameArg)
      requires Valid()
      modifies this
      ensures Valid()
      ensures State() == old(State()).(fields := old(fields) + Appended(arg))
    {
      match arg
      case Name(n) => fields := fields + [n];
      case Names(ns) => fields := fields + ns;
      case NotName =>
    }

    method ResetFields()
      requires Valid()
      modifies this
      ensures Valid()
      ensures State() == old(State()).(fields := [])
    {
      fields := [];
    }

    method AddTable(arg: NameArg)
      requires Valid()
      modifies this
      ensures Valid()
      ensures State() == old(State()).(tables := old(tables) + Appended(arg))
    {
      match arg
      case Name(n) => tables := tables + [n];
      case Names(ns) => tables := tables + ns;
      case NotName =>
    }

    method ResetTables()
      requires Valid()
      modifies this
      ensures Valid()
      ensures State() == old(State()).(tables := [])
    {
      tables := [];
    }

    /** SELECT of the fields ("*" if none) from every table; consumes both. */
    method BuildSelectStatement() returns (r: Result<string>)
      requires Valid()
      modifies this
      ensures Valid()
      ensures old(tables) != [] ==>
        r == Ok(SelectStatement(old(fields), old(tables)))
        && State() == old(State()).(fields := [], tables := [])
      ensures old(tables) == [] ==> r == Err(NoSelectedTable) && State() == old(State())
    {
      if tables != [] {
        if fields == [] {
          fields := fields + ["*"];
        }
        var output := "SELECT " + Join(", ", fields) + " FROM " + Join(", ", tables);
        ResetFields();
        ResetTables();
        r := Ok(output);
      } else {
        r := Err(NoSelectedTable);
      }
    }

    method AddJoin(table: string, condition: string, joinType: string := "LEFT JOIN") returns (r: Outcome)
      requires Valid()
      modifies this
      ensures Valid()
      ensures Joinable(table, condition) ==>
        r == Pass && State() == old(State()).(joins := old(joins) + [JoinText(table, condition, joinType)])
      ensures !Joinable(table, condition) ==> r == Fail(MissingJoinParameters) && State() == old(State())
    {
      if Truthy(table) && Truthy(condition) {
        joins := joins + [joinType + " " + table + " ON " + condition];
        r := Pass;
      } else {
        r := Fail(MissingJoinParameters);
      }
    }

    method ResetJoins()
      requires Valid()
      modifies this
      ensures Valid()
      ensures State() == old(State()).(joins := [])
    {
      joins := [];
    }

    /** The join clauses separated by spaces ("" if none); consumes them. */
    method BuildJoinStatement() returns (s: string)
      requires Valid()
      modifies this
      ensures Valid()
      ensures s == JoinStatement(old(joins))
      ensures State() == old(State()).(joins := [])
    {
      if joins != [] {
        s := Join(" ", joins);
        ResetJoins();
      } else {
        s := "";
      }
    }

    /** Appends "field clause value", the value quoted and escaped unless it
        is "null" or the clause is IN or BETWEEN. */
    method AddFilter(field: string, value: Option<string>, clause: string := "=") returns (r: Outcome)
      requires Valid()
      modifies this
      ensures Valid()
      ensures Truthy(field) && value.Some? && Truthy(clause) ==>
        r == Pass
        && State() == old(State()).(filters := old(filters) + [FilterText(db.escapeStr, field, value.value, clause)])
      ensures !(Truthy(field) && value.Some? && Truthy(clause)) ==>
        r == Fail(MissingFilterParameters) && State() == old(State())
    {
      if Truthy(field) && value.Some? && Truthy(clause) {
        var v := value.value;
        if !(Lower(v) == "null" || Lower(clause) == "in" || Lower(clause) == "between") {
          v := "'" + db.escapeStr(v) + "'";
        }
        filters := filters + [field + " " + clause + " " + v];
        r := Pass;
      } else {
        r := Fail(MissingFilterParameters);
      }
    }

    /** Appends a trusted SQL fragment as it is. */
    method AddCustomFilter(statement: string) returns (r: Outcome)
      requires Valid()
      modifies this
      ensures Valid()
      ensures Truthy(statement) ==> r == Pass && State() == old(State()).(filters := old(filters) + [statement])
      ensures !Truthy(statement) ==> r == Fail(MissingCustomStatement) && State() == old(State())
    {
      if Truthy(statement) {
        filters := filters + [statement];
        r := Pass;
      } else {
        r := Fail(MissingCustomStatement);
      }
    }

    method ResetFilters()
      requires Valid()
      modifies this
      ensures Valid()
      ensures State() == old(State()).(filters := [])
    {
      filters := [];
    }

    /** "WHERE" and the filters joined by one connective ("" if none);
        consumes them. */
    method BuildWhereClause(logic: string := "AND") returns (s: string)
      requires Valid()
      modifies this
      ensures Valid()
      ensures s == WhereClause(old(filters), logic)
      ensures State() == old(State()).(filters := [])
    {
      var connective := if Lower(logic) == "or" then "OR" else "AND";
      if filters != [] {
        s := "WHERE " + Join(" " + connective + " ", filters);
        ResetFilters();
      } else {
        s := "";
      }
    }

    /** Appends "field DIRECTION" when the field is truthy. */
    method AddOrderBy(field: string, order: string := "")
      requires Valid()
      modifies this
      ensures Valid()
      ensures Truthy(field) ==> State() == old(State()).(orderBy := old(orderBy) + [field + " " + Direction(order)])
      ensures !Truthy(field) ==> State() == old(State())
    {
      var direction := if Lower(order) == "desc" then "DESC" else if Lower(order) == "asc" then "ASC" else "";
      if Truthy(field) {
        orderBy := orderBy + [field + " " + direction];
      }
    }

    method ResetOrderBy()
      requires Valid()
      modifies this
      ensures Valid()
      ensures State() == old(State()).(orderBy := [])
    {
      orderBy := [];
    }

    /** "ORDER BY" and the terms ("" if none); consumes them. */
    method GetOrderBy() returns (s: string)
      requires Valid()
      modifies this
      ensures Valid()
      ensures s == OrderByClause(old(orderBy))
      ensures State() == old(State()).(orderBy := [])
    {
      if orderBy != [] {
        s := "ORDER BY " + Join(", ", orderBy);
        ResetOrderBy();
      } else {
        s := "";
      }
    }

    method SetOffset(n: int := 0)
      requires Valid()
      modifies this
      ensures Valid()
      ensures State() == old(State()).(offset := Some(n))
    {
      offset := Some(n);
    }

    /** Clears the offset to null (not to its initial 0). */
    method ResetOffset()
      requires Valid()
      modifies this
      ensures Valid()
      ensures State() == old(State()).(offset := None)
    {
      offset := None;
    }

    /** "OFFSET n" once: a rendered offset is set back to 0, so the next call
        renders nothing; a zero or null offset renders "" and stays. */
    method GetOffset() returns (s: string)
      requires Valid()
      modifies this
      ensures Valid()
      ensures s == OffsetClause(old(offset))
      ensures IsSet(old(offset)) ==> State() == old(State()).(offset := Some(0))
      ensures !IsSet(old(offset)) ==> s == "" && State() == old(State())
      ensures OffsetClause(offset) == ""
    {
      if offset.Some? && offset.value != 0 {
        s := "OFFSET " + IntToString(offset.value);
        offset := Some(0);
      } else {
        s := "";
      }
    }

    method SetLimit(n: int := 20)
      requires Valid()
      modifies this
      ensures Valid()
      ensures State() == old(State()).(limit := Some(n))
    {
      limit := Some(n);
    }

    method ResetLimit()
      requires Valid()
      modifies this
      ensures Valid()
      ensures State() == old(State()).(limit := None)
    {
      limit := None;
    }

    /** "LIMIT n" once: a rendered limit is reset to null, so the next call
        renders nothing; a zero or null limit renders "" and stays. */
    method GetLimit() returns (s: string)
      requires Valid()
      modifies this
      ensures Valid()
      ensures s == LimitClause(old(limit))
      ensures IsSet(old(limit)) ==> State() == old(State()).(limit := None)
      ensures !IsSet(old(limit)) ==> s == "" && State() == old(State())
      ensures LimitClause(limit) == ""
    {
      if limit.Some? && limit.value != 0 {
        s := "LIMIT " + IntToString(limit.value);
        ResetLimit();
      } else {
        s := "";
      }
    }

    /** convertConditionToOperand, with the driver's escape_str; the 'is in'
        list is quoted element by element. Reads no accumulator. */
    method ConvertConditionToOperand(condition: string, value: FilterValue) returns (r: Result<Filter>)
      ensures r == ConditionToOperand(db.escapeStr, condition, value)
    {
      if condition == "is in" {
        if value.List? && |value.items| > 0 {
          var quoted: seq<string> := [];
          var i := 0;
          while i < |value.items|
            invariant 0 <= i <= |value.items|
            invariant |quoted| == i
            invariant forall k :: 0 <= k < i ==> quoted[k] == "'" + db.escapeStr(value.items[k]) + "'"
          {
            quoted := quoted + ["'" + db.escapeStr(value.items[i]) + "'"];
            i := i + 1;
          }
          assert quoted == QuoteAll(db.escapeStr, value.items);
          r := Ok(Filter("IN", "(" + Join(",", quoted) + ")"));
        } else {
          r := Err(InNeedsList);
        }
      } else {
        r := ConditionToOperand(db.escapeStr, condition, value);
      }
    }

    /** The statement quickInsert hands to the driver. */
    method QuickInsert() returns (sql: Result<string>)
      requires Valid()
      modifies this
      ensures Valid()
      ensures InsertGuard(old(tables), old(values)) ==>
        sql == Ok(InsertStatement(old(tables), old(values)))
        && State() == old(State()).(values := [], tables := [])
      ensures !InsertGuard(old(tables), old(values)) ==>
        sql == Err(InsertTableError) && State() == old(State())
    {
      sql := BuildInsertStatement();
    }

    /** The statement quickUpdate hands to the driver: the UPDATE, a space
        and the WHERE clause. A failing UPDATE stops before the WHERE. */
    method QuickUpdate(logic: string := "AND") returns (sql: Result<string>)
      requires Valid()
      modifies this
      ensures Valid()
      ensures UpdateGuard(old(tables), old(values)) ==>
        sql == Ok(UpdateStatement(old(tables), old(values)) + " " + WhereClause(old(filters), logic))
        && State() == old(State()).(values := [], tables := [], filters := [])
      ensures !UpdateGuard(old(tables), old(values)) ==>
        sql == Err(UpdateTableError) && State() == old(State())
    {
      var update := BuildUpdateStatement();
      if update.Err? {
        return Err(update.error);
      }
      var where := BuildWhereClause(logic);
      sql := Ok(update.value + " " + where);
    }

    /** buildQuery: SELECT, JOIN, WHERE, ORDER BY, OFFSET and LIMIT joined by
        single spaces. Consumes fields, tables, joins, filters and order
        terms, and the offset and limit it rendered; values are untouched.
        Without a table nothing is rendered or consumed. */
    method BuildQuery(logic: string := "AND") returns (sql: Result<string>)
      requires Valid()
      modifies this
      ensures Valid()
      ensures old(tables) != [] ==>
        sql == Ok(SelectQuery(SelectStatement(old(fields), old(tables)), old(joins), old(filters), logic,
                              old(orderBy), old(offset), old(limit)))
        && State() == old(State()).(fields := [], tables := [], joins := [], filters := [], orderBy := [],
                                    offset := if IsSet(old(offset)) then Some(0) else old(offset),
                                    limit := if IsSet(old(limit)) then None else old(limit))
      ensures old(tables) == [] ==> sql == Err(NoSelectedTable) && State() == old(State())
    {
      var select := BuildSelectStatement();
      if select.Err? {
        return Err(select.error);
      }
      var join := BuildJoinStatement();
      var where := BuildWhereClause(logic);
      var order := GetOrderBy();
      var off := GetOffset();
      var lim := GetLimit();
      sql := Ok(select.value + " " + join + " " + where + " " + order + " " + off + " " + lim);
    }

    /** The statement quickSelect hands to the driver: the one buildQuery renders. */
    method QuickSelect(logic: string := "AND") returns (sql: Result<string>)
      requires Valid()
      modifies this
      ensures Valid()
      ensures old(tables) != [] ==>
        sql == Ok(SelectQuery(SelectStatement(old(fields), old(tables)), old(joins), old(filters), logic,
                              old(orderBy), old(offset), old(limit)))
        && State() == old(State()).(fields := [], tables := [], joins := [], filters := [], orderBy := [],
                                    offset := if IsSet(old(offset)) then Some(0) else old(offset),
                                    limit := if IsSet(old(limit)) then None else old(limit))
      ensures old(tables) == [] ==> sql == Err(NoSelectedTable) && State() == old(State())
    {
      sql := BuildQuery(logic);
    }

    /** Translates the condition and adds the result through addFilter, which
        escapes and quotes the translated value again except for IS, IS NOT,
        IN and BETWEEN (see TableDataFilterEscapesTwice). */
    method AddTableDataFilter(field: Option<string>, condition: Option<string>, value: FilterValue)
      returns (r: Outcome)
      requires Valid()
      modifies this
      ensures Valid()
      ensures field.None? || condition.None? ==>
        r == Fail(MissingTableDataFilterParameters) && State() == old(State())
      ensures field.Some? && condition.Some? && ConditionToOperand(db.escapeStr, condition.value, value).Err? ==>
        r == Fail(ConditionToOperand(db.escapeStr, condition.value, value).error) && State() == old(State())
      ensures field.Some? && condition.Some? && ConditionToOperand(db.escapeStr, condition.value, value).Ok? ==>
        var t := ConditionToOperand(db.escapeStr, condition.value, value).value;
        (!Truthy(field.value) ==> r == Fail(MissingFilterParameters) && State() == old(State()))
        && (Truthy(field.value) ==>
              r == Pass
              && State() == old(State()).(filters := old(filters) + [FilterText(db.escapeStr, field.value, t.value, t.operand)]))
    {
      if field.None? || condition.None? {
        return Fail(MissingTableDataFilterParameters);
      }
      var filter := ConvertConditionToOperand(condition.value, value);
      if filter.Err? {
        return Fail(filter.error);
      }
      r := AddFilter(field.value, Some(filter.value.value), filter.value.operand);
    }

    /** addJoin for every table => condition pair, in order, as LEFT JOINs.
        The first pair addJoin refuses aborts the loop: the pairs before it
        stay added. */
    method PrepareJoins(pairs: seq<(string, string)>) returns (r: Outcome)
      requires Valid()
      modifies this
      ensures Valid()
      ensures r.Pass? <==> forall k :: 0 <= k < |pairs| ==> Joinable(pairs[k].0, pairs[k].1)
      ensures r.Pass? ==> State() == old(State()).(joins := old(joins) + LeftJoins(pairs))
      ensures r.Fail? ==> r.error == MissingJoinParameters
      ensures r.Fail? ==>
        exists i :: FirstRefused(pairs, i) && State() == old(State()).(joins := old(joins) + LeftJoins(pairs[..i]))
    {
      var i := 0;
      while i < |pairs|
        invariant 0 <= i <= |pairs|
        invariant Valid()
        invariant forall k :: 0 <= k < i ==> Joinable(pairs[k].0, pairs[k].1)
        invariant State() == old(State()).(joins := old(joins) + LeftJoins(pairs[..i]))
      {
        var added := AddJoin(pairs[i].0, pairs[i].1);
        if added.Fail? {
          return added;
        }
        assert LeftJoins(pairs[..i + 1]) == LeftJoins(pairs[..i]) + [JoinText(pairs[i].0, pairs[i].1, "LEFT JOIN")];
        i := i + 1;
      }
      assert pairs[..i] == pairs;
      r := Pass;
    }
  }

  /** The filter of the end-to-end query: 30 is neither "null" nor under
      IN or BETWEEN, so it is quoted. */
  lemma EndToEndFilter(escapeStr: string -> string)
    requires escapeStr("30") == "30"
    ensures FilterText(escapeStr, "age", "30", ">") == "age > '30'"
  {
    assert !KeepsValueVerbatim("30", ">") by {
      assert |Lower("30")| == 2 && |Lower(">")| == 1;
    }
  }

  /** The order term of the end-to-end query. */
  lemma EndToEndOrder()
    ensures "name" + " " + Direction("desc") == "name DESC"
  {
    var d := Lower("desc");
    assert d[0] == 'd' && d[1] == 'e' && d[2] == 's' && d[3] == 'c';
    assert d == "desc";
  }

  /** The SELECT of the end-to-end query. */
  lemma EndToEndSelect()
    ensures SelectStatement(["id", "name"], ["users"]) == "SELECT id, name FROM users"
  {
    assert Join(", ", ["id", "name"]) == "id, name" by {
      assert ["id", "name"][1..] == ["name"];
    }
  }

  /** The WHERE, ORDER BY and LIMIT fragments of the end-to-end query. */
  lemma EndToEndClauses()
    ensures WhereClause(["age > '30'"], "AND") == "WHERE age > '30'"
    ensures OrderByClause(["name DESC"]) == "ORDER BY name DESC"
    ensures LimitClause(Some(5)) == "LIMIT 5"
  {
    assert Connective("AND") == "AND";
    assert IntToString(5) == "5";
  }

  /** The end-to-end fragments and the single spaces between them. */
  lemma EndToEndSpaces()
    ensures "SELECT id, name FROM users" + " " + "" + " " + "WHERE age > '30'" + " "
            + "ORDER BY name DESC" + " " + "" + " " + "LIMIT 5"
         == "SELECT id, name FROM users  WHERE age > '30' ORDER BY name DESC  LIMIT 5"
  {
    assert "SELECT id, name FROM users" + " " + "" + " " == "SELECT id, name FROM users  ";
    assert "SELECT id, name FROM users  " + "WHERE age > '30'" + " " == "SELECT id, name FROM users  WHERE age > '30' ";
    assert "SELECT id, name FROM users  WHERE age > '30' " + "ORDER BY name DESC" + " " + "" + " "
        == "SELECT id, name FROM users  WHERE age > '30' ORDER BY name DESC  ";
    assert "SELECT id, name FROM users  WHERE age > '30' ORDER BY name DESC  " + "LIMIT 5"
        == "SELECT id, name FROM users  WHERE age > '30' ORDER BY name DESC  LIMIT 5";
  }

  /** buildQuery's assembly of the end-to-end fragments: no joins and no
      offset leave two double spaces. */
  lemma EndToEndJoined()
    ensures SelectQuery("SELECT id, name FROM users", [], ["age > '30'"], "AND", ["name DESC"], Some(0), Some(5))
         == "SELECT id, name FROM users  WHERE age > '30' ORDER BY name DESC  LIMIT 5"
  {
    EndToEndClauses();
    EndToEndSpaces();
  }

  /** The end-to-end query built through the helper's own operations, with
      drivers that leave the text as it is. */
  method EndToEndQuery() returns (sql: Result<string>)
    ensures sql == Ok("SELECT id, name FROM users  WHERE age > '30' ORDER BY name DESC  LIMIT 5")
  {
    var helper := new DbHelper(Driver(s => s, s => s));
    helper.AddField(Names(["id", "name"]));
    helper.AddTable(Name("users"));
    assert helper.fields == ["id", "name"] && helper.tables == ["users"];
    var added := helper.AddFilter("age", Some("30"), ">");
    EndToEndFilter(helper.db.escapeStr);
    assert helper.filters == ["age > '30'"];
    helper.AddOrderBy("name", "desc");
    EndToEndOrder();
    assert helper.orderBy == ["name DESC"];
    helper.SetLimit(5);
    sql := helper.BuildQuery();
    EndToEndSelect();
    EndToEndJoined();
  }
}
