/** The projection: the flat list cut into rows, one row per live line break plus the first. */
module Rows {
  import opened Types
  import opened Lists

  type Projection = seq<seq<Ident>>

  function Flat(rows: Projection): seq<Ident> {
    if rows == [] then [] else rows[0] + Flat(rows[1..])
  }

  /** Where row `r` starts in the flat list. */
  function Offset(rows: Projection, r: nat): nat
    requires r <= |rows|
  {
    |Flat(rows[..r])|
  }

  /** Rows break exactly before each live line break. */
  ghost predicate RowsOk(chars: Chars, rows: Projection) {
    rows != [] && HeadsOk(chars, rows) && !Breaks(chars, rows[0][0]) &&
      forall r :: 1 <= r < |rows| ==> Breaks(chars, rows[r][0])
  }

  ghost predicate HeadsOk(chars: Chars, rows: Projection) {
    (forall r :: 0 <= r < |rows| ==> rows[r] != []) &&
    forall r, c :: 0 <= r < |rows| && 1 <= c < |rows[r]| ==> !Breaks(chars, rows[r][c])
  }

  lemma {:induction false} FlatConcat(a: Projection, b: Projection)
    ensures Flat(a + b) == Flat(a) + Flat(b)
  {
    if a == [] {
      assert a + b == b;
    } else {
      FlatConcat(a[1..], b);
      assert (a + b)[0] == a[0] && (a + b)[1..] == a[1..] + b;
      Regroup(a[0], Flat(a[1..]), Flat(b));
    }
  }

  /** The parts of a list that is laid out as front, row, rest. */
  lemma Slices<T(!new)>(front: seq<T>, row: seq<T>, rest: seq<T>, k: nat, pos: nat, e: nat)
    requires k <= |row| && pos == |front| + k && e == |front| + |row|
    ensures var f := front + row + rest;
      f[..|front|] == front && f[|front|..pos] == row[..k] && f[pos..e] == row[k..] && f[e..] == rest
  {}

  /** A flat list is laid out around each of its rows. */
  lemma FlatAround(rows: Projection, r: nat)
    requires r < |rows|
    ensures Flat(rows) == Flat(rows[..r]) + rows[r] + Flat(rows[r + 1..])
  {
    var tail := rows[r..];
    assert tail[0] == rows[r] && tail[1..] == rows[r + 1..];
    assert Flat(rows) == Flat(rows[..r]) + Flat(tail) by {
      assert rows == rows[..r] + tail;
      FlatConcat(rows[..r], tail);
    }
    Regroup(Flat(rows[..r]), rows[r], Flat(rows[r + 1..]));
  }

  /** `row` is the stretch of `f` that starts at `o`. */
  ghost predicate LiesAt<T(!new)>(f: seq<T>, o: nat, row: seq<T>) {
    o + |row| <= |f| && forall c :: 0 <= c < |row| ==> f[o + c] == row[c]
  }

  lemma Parts<T(!new)>(f: seq<T>, front: seq<T>, row: seq<T>, rest: seq<T>)
    requires f == front + row + rest
    ensures LiesAt(f, |front|, row) && |front| + |row| + |rest| == |f|
  {}

  lemma FlatSplit(rows: Projection, r: nat)
    requires r < |rows|
    ensures LiesAt(Flat(rows), Offset(rows, r), rows[r])
    ensures Offset(rows, r) + |rows[r]| + |Flat(rows[r + 1..])| == |Flat(rows)|
  {
    FlatAround(rows, r);
    Parts(Flat(rows), Flat(rows[..r]), rows[r], Flat(rows[r + 1..]));
  }

  lemma RowElement(rows: Projection, r: nat, c: nat)
    requires r < |rows| && c < |rows[r]|
    ensures Offset(rows, r) + c < |Flat(rows)| && Flat(rows)[Offset(rows, r) + c] == rows[r][c]
    ensures rows[r][c] in Flat(rows)
  {
    FlatSplit(rows, r);
  }

  /** Column `c` of row `r`, or the end of the row, is at `pos` in the flat list. */
  ghost predicate Points(rows: Projection, r: nat, c: nat, pos: nat) {
    r < |rows| && c <= |rows[r]| && pos == Offset(rows, r) + c
  }

  lemma PointsAt(rows: Projection, r: nat, c: nat, pos: nat)
    requires Points(rows, r, c, pos)
    ensures pos <= |Flat(rows)|
    ensures c < |rows[r]| ==> pos < |Flat(rows)| && Flat(rows)[pos] == rows[r][c] && rows[r][c] in Flat(rows)
  {
    FlatSplit(rows, r);
    if c < |rows[r]| { RowElement(rows, r, c); }
  }

  /** Replacing row `r` by other rows replaces its stretch of the flat list. */
  lemma FlatReplace(rows: Projection, r: nat, mid: Projection)
    requires r < |rows|
    ensures Flat(rows[..r] + mid + rows[r + 1..]) == Flat(rows[..r]) + Flat(mid) + Flat(rows[r + 1..])
  {
    FlatConcat(rows[..r] + mid, rows[r + 1..]);
    FlatConcat(rows[..r], mid);
  }

  lemma FlatUpdate(rows: Projection, r: nat, row: seq<Ident>)
    requires r < |rows|
    ensures Flat(rows[r := row]) == Flat(rows[..r]) + row + Flat(rows[r + 1..])
  {
    FlatReplace(rows, r, [row]);
    FlatOne(row);
    assert rows[r := row] == rows[..r] + [row] + rows[r + 1..];
  }

  lemma FlatOne(row: seq<Ident>)
    ensures Flat([row]) == row
  {}

  lemma FlatTwo(row: seq<Ident>, row': seq<Ident>)
    ensures Flat([row, row']) == row + row'
  {
    assert [row, row'] == [row] + [row'];
    FlatConcat([row], [row']);
  }

  lemma OffsetNext(rows: Projection, r: nat)
    requires r < |rows|
    ensures Offset(rows, r + 1) == Offset(rows, r) + |rows[r]|
  {
    assert rows[..r + 1] == rows[..r] + [rows[r]];
    FlatConcat(rows[..r], [rows[r]]);
    FlatOne(rows[r]);
  }

  /** What follows a row in the flat list is a line break. */
  lemma PointsEnd(chars: Chars, rows: Projection, r: nat, e: nat)
    requires RowsOk(chars, rows) && r < |rows| && Points(rows, r, |rows[r]|, e)
    ensures e <= |Flat(rows)| && (e < |Flat(rows)| ==> Breaks(chars, Flat(rows)[e]))
  {
    FlatSplit(rows, r);
    if r + 1 < |rows| {
      OffsetNext(rows, r);
      PointsAt(rows, r + 1, 0, e);
    }
  }

  lemma {:induction false} FlatElements(rows: Projection, x: Ident)
    ensures x in Flat(rows) <==> exists r :: 0 <= r < |rows| && x in rows[r]
  {
    if rows != [] {
      FlatElements(rows[1..], x);
      if x in rows[0] { assert 0 <= 0 < |rows|; }
      if r :| 0 <= r < |rows[1..]| && x in rows[1..][r] { assert x in rows[r + 1]; }
    }
  }

  /** The rows are determined by the flat list. */
  lemma {:induction false} RowsUnique(chars: Chars, rows: Projection, rows': Projection)
    requires RowsOk(chars, rows) && RowsOk(chars, rows') && Flat(rows) == Flat(rows')
    ensures rows == rows'
  {
    TailsUnique(chars, rows, rows');
  }

  lemma {:induction false} TailsUnique(chars: Chars, rows: Projection, rows': Projection)
    requires HeadsOk(chars, rows) && HeadsOk(chars, rows') && Flat(rows) == Flat(rows')
    requires forall r :: 1 <= r < |rows| ==> Breaks(chars, rows[r][0])
    requires forall r :: 1 <= r < |rows'| ==> Breaks(chars, rows'[r][0])
    ensures rows == rows'
  {
    if rows != [] && rows' != [] {
      var f, a, b := Flat(rows), rows[0], rows'[0];
      assert f[..|a|] == a && f[|a|..] == Flat(rows[1..]);
      assert f[..|b|] == b && f[|b|..] == Flat(rows'[1..]);
      HeadBound(chars, rows, rows');
      HeadBound(chars, rows', rows);
      TailsUnique(chars, rows[1..], rows'[1..]);
      assert rows == [a] + rows[1..] && rows' == [b] + rows'[1..];
    }
  }

  lemma HeadBound(chars: Chars, rows: Projection, rows': Projection)
    requires rows != [] && rows' != [] && HeadsOk(chars, rows) && HeadsOk(chars, rows') && Flat(rows) == Flat(rows')
    requires forall r :: 1 <= r < |rows| ==> Breaks(chars, rows[r][0])
    ensures |rows[0]| >= |rows'[0]|
  {
    var n := |rows[0]|;
    var f := Flat(rows);
    assert forall k | 1 <= k < |rows'[0]| :: f[k] == rows'[0][k] && !Breaks(chars, f[k]);
    if |rows| > 1 {
      assert rows[1..][0] == rows[1];
      assert f[n] == rows[1][0];
    }
  }
}
