/** The helper's `$values` accumulator: a PHP array used as an
    insertion-ordered map from column name to an escaped SQL literal.
    Assigning an existing column overwrites it where it stands; a new
    column is appended at the end. */
module ValueMap {
  import opened Outcomes

  /** (column, literal) entries in insertion order. */
  type Pairs = seq<(string, string)>

  /** array_keys: the columns in order. */
  function Columns(vs: Pairs): seq<string> {
    if vs == [] then [] else [vs[0].0] + Columns(vs[1..])
  }

  /** The literals in the same order (what implode sees of the array). */
  function Literals(vs: Pairs): seq<string> {
    if vs == [] then [] else [vs[0].1] + Literals(vs[1..])
  }

  /** No column occurs twice: the array's keys are unique. */
  predicate UniqueColumns(vs: Pairs) {
    forall i, j :: 0 <= i < j < |vs| ==> vs[i].0 != vs[j].0
  }

  /** $values[column], when the column is present. */
  function Lookup(vs: Pairs, column: string): Option<string> {
    if vs == [] then None
    else if vs[0].0 == column then Some(vs[0].1)
    else Lookup(vs[1..], column)
  }

  /** $values[column] = literal. */
  function Put(vs: Pairs, column: string, literal: string): Pairs {
    if vs == [] then [(column, literal)]
    else if vs[0].0 == column then [(column, literal)] + vs[1..]
    else [vs[0]] + Put(vs[1..], column, literal)
  }

  /** The foreach of addValue: each pair's value escaped, then assigned in order. */
  function PutAll(vs: Pairs, pairs: Pairs, escape: string -> string): Pairs
    decreases pairs
  {
    if pairs == [] then vs
    else PutAll(Put(vs, pairs[0].0, escape(pairs[0].1)), pairs[1..], escape)
  }

  /** The column list and the literal list of an INSERT are read from the
      same entries in the same order: the i-th column and the i-th literal
      are the two halves of the i-th entry. */
  lemma {:induction false} ColumnsAlignWithLiterals(vs: Pairs)
    ensures |Columns(vs)| == |vs| && |Literals(vs)| == |vs|
    ensures forall i :: 0 <= i < |vs| ==> vs[i] == (Columns(vs)[i], Literals(vs)[i])
  {
    if vs != [] {
      ColumnsAlignWithLiterals(vs[1..]);
      forall i | 1 <= i < |vs|
        ensures vs[i] == (Columns(vs)[i], Literals(vs)[i])
      {
        assert vs[i] == vs[1..][i - 1];
      }
    }
  }

  /** With unique columns, the i-th literal is the value stored under the
      i-th column. */
  lemma {:induction false} LookupColumnAt(vs: Pairs, i: nat)
    requires UniqueColumns(vs) && i < |vs|
    ensures Lookup(vs, vs[i].0) == Some(vs[i].1)
  {
    if i > 0 {
      assert vs[0].0 != vs[i].0;
      assert vs[1..][i - 1] == vs[i];
      LookupColumnAt(vs[1..], i - 1);
    }
  }

  /** After an assignment the column holds the new literal and every other
      column keeps its value. */
  lemma {:induction false} PutLookup(vs: Pairs, column: string, literal: string, other: string)
    ensures Lookup(Put(vs, column, literal), other)
         == if other == column then Some(literal) else Lookup(vs, other)
  {
    if vs != [] && vs[0].0 != column {
      PutLookup(vs[1..], column, literal, other);
    }
  }

  /** Assigning an existing column keeps the column order; a new column is
      appended at the end. */
  lemma {:induction false} PutColumns(vs: Pairs, column: string, literal: string)
    ensures Columns(Put(vs, column, literal))
         == if column in Columns(vs) then Columns(vs) else Columns(vs) + [column]
  {
    if vs != [] {
      if vs[0].0 == column {
        assert Put(vs, column, literal)[1..] == vs[1..];
      } else {
        PutColumns(vs[1..], column, literal);
        assert Put(vs, column, literal)[1..] == Put(vs[1..], column, literal);
        assert column in Columns(vs) <==> column in Columns(vs[1..]);
      }
    }
  }

  lemma {:induction false} ColumnsMembership(vs: Pairs, column: string)
    ensures column in Columns(vs) <==> exists i :: 0 <= i < |vs| && vs[i].0 == column
  {
    ColumnsAlignWithLiterals(vs);
    if column in Columns(vs) {
      var i :| 0 <= i < |Columns(vs)| && Columns(vs)[i] == column;
      assert vs[i].0 == column;
    }
  }

  /** Assignment keeps the keys unique. */
  lemma {:induction false} PutKeepsUnique(vs: Pairs, column: string, literal: string)
    requires UniqueColumns(vs)
    ensures UniqueColumns(Put(vs, column, literal))
  {
    if vs != [] && vs[0].0 != column {
      var tail := Put(vs[1..], column, literal);
      PutKeepsUnique(vs[1..], column, literal);
      PutColumns(vs[1..], column, literal);
      ColumnsMembership(vs[1..], vs[0].0);
      ColumnsMembership(tail, vs[0].0);
      assert vs[0].0 !in Columns(tail);
    }
  }

  /** A whole addValue call keeps the keys unique. */
  lemma {:induction false} PutAllKeepsUnique(vs: Pairs, pairs: Pairs, escape: string -> string)
    requires UniqueColumns(vs)
    ensures UniqueColumns(PutAll(vs, pairs, escape))
    decreases pairs
  {
    if pairs != [] {
      PutKeepsUnique(vs, pairs[0].0, escape(pairs[0].1));
      PutAllKeepsUnique(Put(vs, pairs[0].0, escape(pairs[0].1)), pairs[1..], escape);
    }
  }
}
