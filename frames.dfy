/**
 * The part of a pandas DataFrame that the preprocessing code uses: named
 * columns and an ordered list of rows, with column selection (`df[cols]`)
 * and order-preserving row filters (`df[mask]`, `dropna`).
 */
module Frames {
  import opened Values

  /** One row: column name to cell value. */
  type Row = map<string, Value>

  datatype Frame = Frame(columns: seq<string>, rows: seq<Row>)

  /** The cell of a row in a column; a row without the column reads as NaN, as pandas fills it. */
  function Get(r: Row, c: string): (v: Value)
    ensures c in r ==> v == r[c]
    ensures c !in r ==> v.NaN? && IsMissing(v)
  {
    if c in r then r[c] else NaN
  }

  /** A row reduced to the given columns. */
  function Project(r: Row, cols: seq<string>): (p: Row)
    ensures p.Keys == set c | c in cols
    ensures forall c :: c in cols ==> p[c] == Get(r, c)
  {
    map c | c in cols :: Get(r, c)
  }

  /** The first of `cols` that the frame does not have. */
  function MissingColumn(columns: seq<string>, cols: seq<string>): (m: Option<string>)
    ensures m.None? <==> forall c :: c in cols ==> c in columns
    ensures m.Some? ==> m.value in cols && m.value !in columns
    decreases |cols|
  {
    if cols == [] then None
    else if cols[0] !in columns then Some(cols[0])
    else MissingColumn(columns, cols[1..])
  }

  /** `df[cols]`: raises KeyError when a column is absent, otherwise keeps every row, reduced to `cols`. */
  function Select(f: Frame, cols: seq<string>): (r: Result<Frame>)
    ensures r.Ok? <==> forall c :: c in cols ==> c in f.columns
    ensures r.Err? ==> r.error.KeyError? && r.error.key in cols && r.error.key !in f.columns
    ensures r.Ok? ==> r.value.columns == cols && |r.value.rows| == |f.rows|
    ensures r.Ok? ==> forall k :: 0 <= k < |f.rows| ==> r.value.rows[k] == Project(f.rows[k], cols)
  {
    match MissingColumn(f.columns, cols)
    case Some(c) => Err(KeyError(c))
    case None => Ok(Frame(cols, seq(|f.rows|, k requires 0 <= k < |f.rows| => Project(f.rows[k], cols))))
  }

  /** Selecting columns commutes with splitting the rows. */
  lemma SelectConcat(columns: seq<string>, a: seq<Row>, b: seq<Row>, cols: seq<string>)
    requires Select(Frame(columns, a + b), cols).Ok?
    ensures Select(Frame(columns, a), cols).Ok? && Select(Frame(columns, b), cols).Ok?
    ensures Select(Frame(columns, a + b), cols).value.rows
         == Select(Frame(columns, a), cols).value.rows + Select(Frame(columns, b), cols).value.rows
  {
  }

  /** The elements of `s` that satisfy `p`, in their original order. */
  function Filter<T>(s: seq<T>, p: T -> bool): (r: seq<T>)
    ensures |r| <= |s|
    ensures forall x :: x in r ==> x in s && p(x)
    decreases |s|
  {
    if s == [] then []
    else if p(s[0]) then [s[0]] + Filter(s[1..], p)
    else Filter(s[1..], p)
  }

  /** Filtering keeps order: it distributes over concatenation. */
  lemma {:induction false} FilterConcat<T>(a: seq<T>, b: seq<T>, p: T -> bool)
    ensures Filter(a + b, p) == Filter(a, p) + Filter(b, p)
    decreases |a|
  {
    if a == [] {
      assert a + b == b;
    } else {
      assert (a + b)[1..] == a[1..] + b;
      FilterConcat(a[1..], b, p);
    }
  }

  /** Filtering drops nothing that satisfies the predicate. */
  lemma {:induction false} FilterKeeps<T>(s: seq<T>, p: T -> bool, x: T)
    requires x in s && p(x)
    ensures x in Filter(s, p)
    decreases |s|
  {
    if s[0] != x {
      FilterKeeps(s[1..], p, x);
    }
  }

  /**
   * Filtering commutes with an element-wise map `f` when the two tests agree
   * on every element and its image: filtering the images gives the images of
   * what filtering the originals keeps.
   */
  lemma {:induction false} FilterMapCommute<A, B>(xs: seq<A>, ys: seq<B>, f: A -> B, p: A -> bool, q: B -> bool)
    requires |ys| == |xs|
    requires forall k :: 0 <= k < |xs| ==> ys[k] == f(xs[k]) && q(ys[k]) == p(xs[k])
    ensures |Filter(ys, q)| == |Filter(xs, p)|
    ensures forall k :: 0 <= k < |Filter(xs, p)| ==> Filter(ys, q)[k] == f(Filter(xs, p)[k])
    decreases |xs|
  {
    if xs != [] {
      assert forall k :: 0 <= k < |xs| - 1 ==> ys[1..][k] == f(xs[1..][k]) && q(ys[1..][k]) == p(xs[1..][k]);
      FilterMapCommute(xs[1..], ys[1..], f, p, q);
      assert ys[0] == f(xs[0]) && q(ys[0]) == p(xs[0]);
    }
  }

  /** Filtering everything out: nothing is left. */
  lemma {:induction false} FilterNone<T>(s: seq<T>, p: T -> bool)
    requires forall x :: x in s ==> !p(x)
    ensures Filter(s, p) == []
    decreases |s|
  {
    if s != [] {
      FilterNone(s[1..], p);
    }
  }
}
