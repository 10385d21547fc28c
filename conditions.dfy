/** The condition translator: a human-readable filter condition and a value
    become a SQL operand and an escaped value expression; and the list of
    conditions that may be applied to a timestamp column. */
module Conditions {
  import opened Outcomes
  import opened Text

  /** The value handed to the translator: one string, or a PHP array of strings. */
  datatype FilterValue = Scalar(text: string) | List(items: seq<string>)

  /** The translator's answer, ['operand' => ..., 'value' => ...]. */
  datatype Filter = Filter(operand: string, value: string)

  /** Every condition name the translator recognises (case-sensitive). */
  const ConditionNames: set<string> := {
    "contains", "does not contain", "equals", "is", "does not equal", "is not",
    "is greater than", "is greater", "greater than", "is less than", "is less", "less than",
    "begins with", "ends with", "is null", "is not null", "is between", "is in"
  }

  /** The pattern-matching conditions, which wrap the value in % wildcards. */
  const PatternConditions: set<string> := {
    "contains", "does not contain", "begins with", "ends with"
  }

  /** The conditions that compare the escaped value as it is. */
  const ComparisonConditions: set<string> := {
    "equals", "is", "does not equal", "is not",
    "is greater than", "is greater", "greater than", "is less than", "is less", "less than"
  }

  /** The names validateTimestampOperand lets through. */
  const TimestampOperands: set<string> := {
    "equals", "is", "does not equal", "is not",
    "is greater than", "is greater", "greater than",
    "is less than", "is less", "less than",
    "is null", "is not null", "is in", "is between"
  }

  /** escape_str of the value as string concatenation sees it. The driver's
      escape_str maps an array element-wise to an array, and PHP renders an
      array inside a string as "Array". */
  function EscapedText(escapeStr: string -> string, value: FilterValue): string {
    match value
    case Scalar(t) => escapeStr(t)
    case List(_) => "Array"
  }

  /** A condition whose value is escape_str(value) alone; an array value is
      still an array afterwards and is rejected by the final check. */
  function Compare(escapeStr: string -> string, condition: string, operand: string, value: FilterValue): Result<Filter> {
    match value
    case Scalar(t) => Ok(Filter(operand, escapeStr(t)))
    case List(_) => Err(ArrayValue(condition))
  }

  /** An escaped value in single quotes. */
  function Quote(escapeStr: string -> string, s: string): string {
    "'" + escapeStr(s) + "'"
  }

  /** Every element escaped and quoted, in input order. */
  function QuoteAll(escapeStr: string -> string, items: seq<string>): seq<string> {
    seq(|items|, i requires 0 <= i < |items| => Quote(escapeStr, items[i]))
  }

  /** PHP's sort on a two-element array, under the byte-wise string order:
      the same two strings, the smaller first. */
  function SortPair(pair: seq<string>): (r: seq<string>)
    requires |pair| == 2
    ensures |r| == 2 && StrLe(r[0], r[1])
    ensures multiset(r) == multiset(pair)
  {
    StrLeTotal(pair[0], pair[1]);
    assert pair == [pair[0], pair[1]];
    if StrLe(pair[0], pair[1]) then pair else [pair[1], pair[0]]
  }

  /** convertConditionToOperand. Known names never give the vocabulary
      error, unknown names always do, and every success carries one of the
      ten SQL operands. */
  function ConditionToOperand(escapeStr: string -> string, condition: string, value: FilterValue): (r: Result<Filter>)
    ensures r == Err(UnknownCondition(condition)) <==> condition !in ConditionNames
    ensures r.Ok? ==> r.value.operand in {"ILIKE", "NOT LIKE", "=", "!=", ">", "<", "IS", "IS NOT", "BETWEEN", "IN"}
  {
    if condition == "contains" then Ok(Filter("ILIKE", "%" + EscapedText(escapeStr, value) + "%"))
    else if condition == "does not contain" then Ok(Filter("NOT LIKE", "%" + EscapedText(escapeStr, value) + "%"))
    else if condition == "equals" || condition == "is" then Compare(escapeStr, condition, "=", value)
    else if condition == "does not equal" || condition == "is not" then Compare(escapeStr, condition, "!=", value)
    else if condition == "is greater than" || condition == "is greater" || condition == "greater than" then
      Compare(escapeStr, condition, ">", value)
    else if condition == "is less than" || condition == "is less" || condition == "less than" then
      Compare(escapeStr, condition, "<", value)
    else if condition == "begins with" then Ok(Filter("ILIKE", EscapedText(escapeStr, value) + "%"))
    else if condition == "ends with" then Ok(Filter("ILIKE", "%" + EscapedText(escapeStr, value)))
    else if condition == "is null" then Ok(Filter("IS", "NULL"))
    else if condition == "is not null" then Ok(Filter("IS NOT", "NULL"))
    else if condition == "is between" then
      if value.List? && |value.items| == 2 then
        var sorted := SortPair(value.items);
        Ok(Filter("BETWEEN", Quote(escapeStr, sorted[0]) + " AND " + Quote(escapeStr, sorted[1])))
      else Err(BetweenNeedsPair)
    else if condition == "is in" then
      if value.List? && |value.items| > 0 then
        Ok(Filter("IN", "(" + Join(",", QuoteAll(escapeStr, value.items)) + ")"))
      else Err(InNeedsList)
    else Err(UnknownCondition(condition))
  }

  /** The pattern conditions: ILIKE or NOT LIKE, with the escaped value
      wrapped in wildcards on the side the name says. */
  lemma PatternConditionsWrapInWildcards(escapeStr: string -> string, v: string)
    ensures ConditionToOperand(escapeStr, "contains", Scalar(v)) == Ok(Filter("ILIKE", "%" + escapeStr(v) + "%"))
    ensures ConditionToOperand(escapeStr, "does not contain", Scalar(v)) == Ok(Filter("NOT LIKE", "%" + escapeStr(v) + "%"))
    ensures ConditionToOperand(escapeStr, "begins with", Scalar(v)) == Ok(Filter("ILIKE", escapeStr(v) + "%"))
    ensures ConditionToOperand(escapeStr, "ends with", Scalar(v)) == Ok(Filter("ILIKE", "%" + escapeStr(v)))
  {
  }

  /** The comparison conditions: the operand the name denotes and the escaped
      value; an array value is refused. */
  lemma ComparisonConditionsEscapeValue(escapeStr: string -> string, condition: string, value: FilterValue)
    requires condition in ComparisonConditions
    ensures value.Scalar? ==> ConditionToOperand(escapeStr, condition, value).Ok?
    ensures value.Scalar? ==> ConditionToOperand(escapeStr, condition, value).value.value == escapeStr(value.text)
    ensures value.List? ==> ConditionToOperand(escapeStr, condition, value) == Err(ArrayValue(condition))
    ensures condition in {"equals", "is"} ==> value.Scalar? ==> ConditionToOperand(escapeStr, condition, value).value.operand == "="
    ensures condition in {"does not equal", "is not"} ==> value.Scalar? ==> ConditionToOperand(escapeStr, condition, value).value.operand == "!="
    ensures condition in {"is greater than", "is greater", "greater than"} ==> value.Scalar? ==> ConditionToOperand(escapeStr, condition, value).value.operand == ">"
    ensures condition in {"is less than", "is less", "less than"} ==> value.Scalar? ==> ConditionToOperand(escapeStr, condition, value).value.operand == "<"
  {
  }

  /** 'is null' and 'is not null' ignore the value entirely. */
  lemma NullConditionsIgnoreValue(escapeStr: string -> string, value: FilterValue)
    ensures ConditionToOperand(escapeStr, "is null", value) == Ok(Filter("IS", "NULL"))
    ensures ConditionToOperand(escapeStr, "is not null", value) == Ok(Filter("IS NOT", "NULL"))
  {
  }

  /** 'is between' accepts exactly a two-element array, puts the smaller
      bound first whichever order it was given in, and quotes both. */
  lemma {:induction false} BetweenOrdersItsBounds(escapeStr: string -> string, lo: string, hi: string, value: FilterValue)
    requires StrLe(lo, hi)
    ensures ConditionToOperand(escapeStr, "is between", List([lo, hi]))
         == ConditionToOperand(escapeStr, "is between", List([hi, lo]))
         == Ok(Filter("BETWEEN", Quote(escapeStr, lo) + " AND " + Quote(escapeStr, hi)))
    ensures !(value.List? && |value.items| == 2) ==> ConditionToOperand(escapeStr, "is between", value) == Err(BetweenNeedsPair)
  {
    if StrLe(hi, lo) {
      StrLeAntisymmetric(lo, hi);
    }
  }

  /** 'is in' accepts exactly a non-empty array and renders every element,
      escaped and quoted, in input order. */
  lemma InQuotesEveryElement(escapeStr: string -> string, value: FilterValue)
    ensures value.List? && value.items != [] <==> ConditionToOperand(escapeStr, "is in", value).Ok?
    ensures value.List? && value.items != [] ==>
      ConditionToOperand(escapeStr, "is in", value) == Ok(Filter("IN", "(" + Join(",", QuoteAll(escapeStr, value.items)) + ")"))
    ensures !(value.List? && value.items != []) ==> ConditionToOperand(escapeStr, "is in", value) == Err(InNeedsList)
    ensures value.List? ==> |QuoteAll(escapeStr, value.items)| == |value.items|
    ensures value.List? ==> forall i :: 0 <= i < |value.items| ==>
      QuoteAll(escapeStr, value.items)[i] == "'" + escapeStr(value.items[i]) + "'"
  {
  }

  /** validateTimestampOperand: the name itself, for exactly the conditions
      that do not pattern-match. */
  function ValidateTimestampOperand(operand: string): (r: Result<string>)
    ensures r.Ok? ==> r.value == operand
    ensures r.Ok? <==> operand in ConditionNames && operand !in PatternConditions
    ensures r.Err? ==> r.error == IncompatibleTimestampOperand(operand)
  {
    if operand in TimestampOperands then Ok(operand) else Err(IncompatibleTimestampOperand(operand))
  }

  /** Every operand accepted for a timestamp column is one the translator
      recognises, whatever the value. */
  lemma TimestampOperandsAreConditions(escapeStr: string -> string, operand: string, value: FilterValue)
    requires ValidateTimestampOperand(operand).Ok?
    ensures ConditionToOperand(escapeStr, operand, value) != Err(UnknownCondition(operand))
  {
  }
}
