/**
 * The part of a pandas DataFrame the core relies on: named columns, rows keyed
 * by column name, missing values, and the column/row operations that
 * dataset.py applies (drop, dropna's row filter, concat, iloc[::-1]).
 */
module Frames {
  import opened Wrappers
  import opened Errors

  /** One cell: pandas' missing value, a string, or a float. */
  datatype Cell = NA | Text(s: string) | Number(x: real)

  type Row = map<string, Cell>

  datatype Frame = Frame(columns: seq<string>, rows: seq<Row>)

  predicate Distinct(cs: seq<string>)
  {
    forall i, j :: 0 <= i < j < |cs| ==> cs[i] != cs[j]
  }

  function ColumnSet(cs: seq<string>): set<string>
  {
    set c | c in cs
  }

  /** What every DataFrame satisfies: distinct column labels, and every row has a cell in every column. */
  predicate WellFormed(f: Frame)
  {
    Distinct(f.columns) && forall r :: r in f.rows ==> r.Keys == ColumnSet(f.columns)
  }

  /** The names of `wanted` that are not in `have`, in the order of `wanted`. */
  function MissingFrom(wanted: seq<string>, have: seq<string>): (m: seq<string>)
    ensures forall c :: c in m <==> c in wanted && c !in have
    ensures Distinct(wanted) ==> Distinct(m)
  {
    if wanted == [] then []
    else
      var rest := MissingFrom(wanted[1..], have);
      assert Distinct(wanted) ==> wanted[0] !in wanted[1..];
      if wanted[0] in have then rest else [wanted[0]] + rest
  }

  lemma {:induction false} MissingFromAppend(a: seq<string>, b: seq<string>, have: seq<string>)
    ensures MissingFrom(a + b, have) == MissingFrom(a, have) + MissingFrom(b, have)
  {
    if a == [] {
      assert a + b == b;
    } else {
      assert (a + b)[1..] == a[1..] + b;
      MissingFromAppend(a[1..], b, have);
    }
  }

  lemma MissingFromOne(w: string, have: seq<string>)
    ensures MissingFrom([w], have) == if w in have then [] else [w]
  {
    assert [w][1..] == [];
  }

  lemma MissingFromCovered(wanted: seq<string>, have: seq<string>)
    requires forall c :: c in wanted ==> c in have
    ensures MissingFrom(wanted, have) == []
  {
    if wanted != [] {
      MissingFromCovered(wanted[1..], have);
    }
  }

  /** `cs` with every occurrence of `c` removed, order kept. */
  function Without(cs: seq<string>, c: string): (r: seq<string>)
    ensures forall d :: d in r <==> d in cs && d != c
    ensures Distinct(cs) ==> Distinct(r)
    ensures |r| <= |cs|
    ensures c !in cs ==> r == cs
  {
    if cs == [] then []
    else
      var rest := Without(cs[1..], c);
      assert Distinct(cs) ==> cs[0] !in cs[1..];
      if cs[0] == c then rest else [cs[0]] + rest
  }

  /** Removal works name by name, so the other names keep their order. */
  lemma {:induction false} WithoutAppend(a: seq<string>, b: seq<string>, c: string)
    ensures Without(a + b, c) == Without(a, c) + Without(b, c)
  {
    if a == [] {
      assert a + b == b;
    } else {
      assert (a + b)[1..] == a[1..] + b;
      WithoutAppend(a[1..], b, c);
    }
  }

  lemma WithoutOne(d: string, c: string)
    ensures Without([d], c) == if d == c then [] else [d]
  {
    assert [d][1..] == [];
  }

  /** `df.drop(columns=[c])`: a KeyError when the column is absent. */
  function DropColumn(f: Frame, c: string): (r: Result<Frame, Error>)
    requires WellFormed(f)
    ensures r.Err? <==> c !in f.columns
    ensures r.Err? ==> r.error == KeyError([c])
    ensures r.Ok? ==> WellFormed(r.value) && r.value.columns == Without(f.columns, c) && c !in r.value.columns
    ensures r.Ok? ==> |r.value.rows| == |f.rows| && forall i :: 0 <= i < |f.rows| ==> r.value.rows[i] == f.rows[i] - {c}
  {
    if c !in f.columns then Err(KeyError([c]))
    else
      var rows := seq(|f.rows|, i requires 0 <= i < |f.rows| => f.rows[i] - {c});
      assert forall i :: 0 <= i < |f.rows| ==> f.rows[i] in f.rows;
      Ok(Frame(Without(f.columns, c), rows))
  }

  /** A row in which each listed column is present and not missing. */
  predicate Complete(r: Row, subset: seq<string>)
  {
    forall c :: c in subset ==> c in r && r[c] != NA
  }

  lemma CompleteWithout(r: Row, subset: seq<string>, c: string)
    requires Complete(r, subset) && c !in subset
    ensures Complete(r - {c}, subset)
  {
  }

  /** The rows that have a value in every column of `subset`, in their original order. */
  function KeepComplete(rows: seq<Row>, subset: seq<string>): (kept: seq<Row>)
    ensures |kept| <= |rows|
    ensures forall r :: r in kept ==> r in rows && Complete(r, subset)
    ensures forall r :: r in rows && Complete(r, subset) ==> r in kept
  {
    if rows == [] then []
    else (if Complete(rows[0], subset) then [rows[0]] else []) + KeepComplete(rows[1..], subset)
  }

  /** Row filtering respects concatenation, so relative order is kept. */
  lemma {:induction false} KeepCompleteAppend(a: seq<Row>, b: seq<Row>, subset: seq<string>)
    ensures KeepComplete(a + b, subset) == KeepComplete(a, subset) + KeepComplete(b, subset)
  {
    if a != [] {
      assert (a + b)[1..] == a[1..] + b;
      KeepCompleteAppend(a[1..], b, subset);
    } else {
      assert a + b == b;
    }
  }

  /** The reference definition of reversal: position i holds the element |s|-1-i. */
  function Reversed<T>(s: seq<T>): (r: seq<T>)
    ensures |r| == |s|
    ensures forall i :: 0 <= i < |s| ==> r[i] == s[|s| - 1 - i]
  {
    if s == [] then [] else Reversed(s[1..]) + [s[0]]
  }

  lemma ReversedAppend<T>(a: seq<T>, b: seq<T>)
    ensures Reversed(a + b) == Reversed(b) + Reversed(a)
  {
    var l, r := Reversed(a + b), Reversed(b) + Reversed(a);
    assert |l| == |r|;
    forall i | 0 <= i < |l| ensures l[i] == r[i] {
      if i < |b| {
        assert l[i] == (a + b)[|a| + |b| - 1 - i] == b[|b| - 1 - i];
      } else {
        assert l[i] == (a + b)[|a| + |b| - 1 - i] == a[|a| - 1 - (i - |b|)];
      }
    }
  }

  /** `df.iloc[::-1]`: the same columns, rows in reverse order. */
  function ReverseRows(f: Frame): (g: Frame)
    ensures g.columns == f.columns && |g.rows| == |f.rows|
    ensures forall i :: 0 <= i < |f.rows| ==> g.rows[i] == f.rows[|f.rows| - 1 - i]
    ensures WellFormed(f) ==> WellFormed(g)
  {
    var g := Frame(f.columns, Reversed(f.rows));
    assert forall r :: r in g.rows ==> r in f.rows by {
      forall r | r in g.rows ensures r in f.rows {
        var i :| 0 <= i < |g.rows| && g.rows[i] == r;
        assert f.rows[|f.rows| - 1 - i] == r;
      }
    }
    g
  }

  /** A row widened to `cols`, with NA in the columns it lacked (what concat does to rows). */
  function Extend(r: Row, cols: seq<string>): (e: Row)
    ensures e.Keys == ColumnSet(cols)
    ensures forall c :: c in cols && c in r ==> e[c] == r[c]
    ensures forall c :: c in cols && c !in r ==> e[c] == NA
  {
    map c | c in cols :: if c in r then r[c] else NA
  }

  lemma ExtendKeeps(r: Row, cols: seq<string>)
    requires r.Keys == ColumnSet(cols)
    ensures Extend(r, cols) == r
  {
    var e := Extend(r, cols);
    assert e.Keys == r.Keys;
    forall c | c in e ensures e[c] == r[c] {}
  }

  function ExtendAll(rows: seq<Row>, cols: seq<string>): (e: seq<Row>)
    ensures |e| == |rows|
    ensures forall i :: 0 <= i < |rows| ==> e[i] == Extend(rows[i], cols)
  {
    seq(|rows|, i requires 0 <= i < |rows| => Extend(rows[i], cols))
  }

  /**
   * `pd.concat([a, b], axis="rows")`: the columns of a, then those of b that a
   * lacks; the rows of a, then those of b, each widened with NA.
   */
  function Concat(a: Frame, b: Frame): (f: Frame)
    ensures f.columns == a.columns + MissingFrom(b.columns, a.columns)
    ensures f.rows == ExtendAll(a.rows, f.columns) + ExtendAll(b.rows, f.columns)
    ensures WellFormed(a) && WellFormed(b) ==> WellFormed(f)
  {
    var cols := a.columns + MissingFrom(b.columns, a.columns);
    var f := Frame(cols, ExtendAll(a.rows, cols) + ExtendAll(b.rows, cols));
    assert WellFormed(a) && WellFormed(b) ==> Distinct(cols) by {
      if WellFormed(a) && WellFormed(b) {
        var n := MissingFrom(b.columns, a.columns);
        forall i, j | 0 <= i < j < |cols| ensures cols[i] != cols[j] {
          if j < |a.columns| {
            assert cols[i] == a.columns[i] && cols[j] == a.columns[j];
          } else if i < |a.columns| {
            assert cols[i] == a.columns[i] && cols[i] in a.columns;
            assert cols[j] == n[j - |a.columns|] && cols[j] in n;
          } else {
            assert cols[i] == n[i - |a.columns|] && cols[j] == n[j - |a.columns|];
          }
        }
      }
    }
    f
  }

  /** When b brings no new column, concat keeps a's columns and a's rows as they are. */
  lemma ConcatNoNewColumns(a: Frame, b: Frame)
    requires WellFormed(a)
    requires ColumnSet(b.columns) <= ColumnSet(a.columns)
    ensures Concat(a, b) == Frame(a.columns, a.rows + ExtendAll(b.rows, a.columns))
  {
    var n := MissingFrom(b.columns, a.columns);
    forall c | c in b.columns ensures c in a.columns {
      assert c in ColumnSet(b.columns);
    }
    MissingFromCovered(b.columns, a.columns);
    assert a.columns + n == a.columns;
    forall i | 0 <= i < |a.rows| ensures Extend(a.rows[i], a.columns) == a.rows[i] {
      assert a.rows[i] in a.rows;
      ExtendKeeps(a.rows[i], a.columns);
    }
  }

  /** True when some cell of the frame holds a value (`df.notna().any().any()`). */
  predicate AnyPresent(f: Frame)
  {
    exists i, c :: 0 <= i < |f.rows| && c in f.rows[i] && f.rows[i][c] != NA
  }

  /** A witness cell for AnyPresent. */
  lemma PresentAt(f: Frame, i: int, c: string)
    requires 0 <= i < |f.rows| && c in f.rows[i] && f.rows[i][c] != NA
    ensures AnyPresent(f)
  {
  }

  /** `df[c] = v`: every row gets v in column c, which is appended when absent. */
  function SetColumn(f: Frame, c: string, v: Cell): (g: Frame)
    ensures g.columns == if c in f.columns then f.columns else f.columns + [c]
    ensures |g.rows| == |f.rows| && forall i :: 0 <= i < |f.rows| ==> g.rows[i] == f.rows[i][c := v]
    ensures WellFormed(f) ==> WellFormed(g)
  {
    var cols := if c in f.columns then f.columns else f.columns + [c];
    var rows := seq(|f.rows|, i requires 0 <= i < |f.rows| => f.rows[i][c := v]);
    assert forall i :: 0 <= i < |f.rows| ==> f.rows[i] in f.rows;
    assert ColumnSet(cols) == ColumnSet(f.columns) + {c};
    Frame(cols, rows)
  }
}
