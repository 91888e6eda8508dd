/** The editor's lines: an anchor, then the characters behind it. Laid end to end they are one list,
    in which a character offset is the index of the cell it sits behind. */
module Lines {
  import opened Types
  import opened Lists

  datatype Line<T> = Line(anchor: T, cells: seq<T>)

  /** A line, anchor first. */
  function Whole<T>(line: Line<T>): seq<T> {
    [line.anchor] + line.cells
  }

  function Cells<T>(lines: seq<Line<T>>): (s: seq<T>)
    ensures lines != [] ==> s != [] && s[0] == lines[0].anchor
  {
    if lines == [] then [] else Whole(lines[0]) + Cells(lines[1..])
  }

  /** How many cells the first `r` lines have, anchors included. */
  function Size<T>(lines: seq<Line<T>>, r: nat): nat
    requires r <= |lines|
  {
    |Cells(lines[..r])|
  }

  lemma TailOfConcat<T>(a: seq<T>, b: seq<T>)
    requires a != []
    ensures a + b != [] && (a + b)[0] == a[0] && (a + b)[1..] == a[1..] + b
  {}

  lemma {:induction false} CellsConcat<T>(a: seq<Line<T>>, b: seq<Line<T>>)
    ensures Cells(a + b) == Cells(a) + Cells(b)
  {
    if a == [] {
      assert a + b == b;
    } else {
      CellsConcat(a[1..], b);
      TailOfConcat(a, b);
      Regroup(Whole(a[0]), Cells(a[1..]), Cells(b));
    }
  }

  lemma CellsOne<T>(line: Line<T>)
    ensures Cells([line]) == Whole(line)
  {}

  lemma CellsTwo<T>(line: Line<T>, line': Line<T>)
    ensures Cells([line, line']) == Whole(line) + Whole(line')
  {
    assert [line, line'] == [line] + [line'];
    CellsConcat([line], [line']);
  }

  /** Some lines between two others. */
  lemma CellsBetween<T>(front: seq<Line<T>>, mid: seq<Line<T>>, rest: seq<Line<T>>)
    ensures Cells(front + mid + rest) == Cells(front) + Cells(mid) + Cells(rest)
  {
    CellsConcat(front + mid, rest);
    CellsConcat(front, mid);
  }

  lemma SplitAround<T>(s: seq<T>, r: nat)
    requires r < |s|
    ensures s == s[..r] + [s[r]] + s[r + 1..]
    ensures s[r..][0] == s[r] && s[r..][1..] == s[r + 1..] && s == s[..r] + s[r..]
  {}

  lemma CellsAround<T>(lines: seq<Line<T>>, r: nat)
    requires r < |lines|
    ensures Cells(lines) == Cells(lines[..r]) + Whole(lines[r]) + Cells(lines[r + 1..])
  {
    SplitAround(lines, r);
    CellsBetween(lines[..r], [lines[r]], lines[r + 1..]);
    CellsOne(lines[r]);
  }

  lemma CellsAroundTwo<T>(lines: seq<Line<T>>, r: nat)
    requires r + 1 < |lines|
    ensures Cells(lines) == Cells(lines[..r]) + (Whole(lines[r]) + Whole(lines[r + 1])) + Cells(lines[r + 2..])
  {
    CellsAround(lines, r);
    SplitAround(lines, r + 1);
    Regroup(Cells(lines[..r]) + Whole(lines[r]), Whole(lines[r + 1]), Cells(lines[r + 2..]));
    Regroup(Cells(lines[..r]), Whole(lines[r]), Whole(lines[r + 1]));
  }

  lemma SizeNext<T>(lines: seq<Line<T>>, r: nat)
    requires r < |lines|
    ensures Size(lines, r + 1) == Size(lines, r) + 1 + |lines[r].cells| <= |Cells(lines)|
    ensures Cells(lines[..r + 1]) == Cells(lines[..r]) + Whole(lines[r])
  {
    assert lines[..r + 1] == lines[..r] + [lines[r]];
    CellsConcat(lines[..r], [lines[r]]);
    CellsOne(lines[r]);
    CellsAround(lines, r);
  }

  /** The row and column of the cell that `offset` is behind; none if the document is shorter. */
  method Locate<T>(lines: seq<Line<T>>, offset: nat) returns (found: Option<(nat, nat)>)
    ensures found.None? <==> offset >= |Cells(lines)|
    ensures found.Some? ==> (
      var (row, col) := found.value; row < |lines| && col <= |lines[row].cells| && Size(lines, row) + col == offset)
  {
    var acc, row := 0, 0;
    while row < |lines|
      invariant 0 <= row <= |lines| && acc == Size(lines, row) <= offset
    {
      SizeNext(lines, row);
      if offset <= acc + |lines[row].cells| {
        return Some((row, offset - acc));
      }
      acc := acc + |lines[row].cells| + 1;
      row := row + 1;
    }
    assert lines[..row] == lines;
    return None;
  }

  /** The cell that column `col` of row `row` is behind. */
  function Behind<T>(line: Line<T>, col: nat): T
    requires col <= |line.cells|
  {
    if col == 0 then line.anchor else line.cells[col - 1]
  }

  lemma BehindIsAt<T>(lines: seq<Line<T>>, r: nat, col: nat, i: nat)
    requires r < |lines| && col <= |lines[r].cells| && i == Size(lines, r) + col
    ensures i < |Cells(lines)| && Cells(lines)[i] == Behind(lines[r], col)
  {
    CellsAround(lines, r);
    InMiddle(Cells(lines[..r]), Whole(lines[r]), Cells(lines[r + 1..]), col, i);
  }

  // ----- Editing -----

  lemma InMiddle<T>(front: seq<T>, row: seq<T>, rest: seq<T>, k: nat, i: nat)
    requires k < |row| && i == |front| + k
    ensures (front + row + rest)[i] == row[k]
    ensures Without(front + row + rest, i) == front + Without(row, k) + rest
  {
    EraseInSlice(front, row, rest, k, i);
  }

  /** Line `r` gives way to `mid`. */
  function Spliced<T>(lines: seq<Line<T>>, r: nat, mid: seq<Line<T>>): seq<Line<T>>
    requires r < |lines|
  {
    lines[..r] + mid + lines[r + 1..]
  }

  lemma UpdateIsSpliced<T>(lines: seq<Line<T>>, r: nat, a: Line<T>)
    requires r < |lines|
    ensures lines[r := a] == Spliced(lines, r, [a])
  {}

  lemma UpdateAndInsert<T>(lines: seq<Line<T>>, r: nat, a: Line<T>, b: Line<T>)
    requires r < |lines|
    ensures lines[r := a][..r + 1] + [b] + lines[r := a][r + 1..] == Spliced(lines, r, [a, b])
  {}

  lemma UpdateAndDrop<T>(lines: seq<Line<T>>, r: nat, a: Line<T>)
    requires r + 1 < |lines|
    ensures lines[r := a][..r + 1] + lines[r := a][r + 2..] == lines[..r] + [a] + lines[r + 2..]
  {}

  lemma InsertBehindAnchor<T>(a: T, row: seq<T>, k: nat, i: nat, x: T)
    requires k <= |row| && i == k + 1
    ensures InsertAt(Whole(Line(a, row)), i, x) == Whole(Line(a, InsertAt(row, k, x)))
    ensures InsertAt(Whole(Line(a, row)), i, x) == Whole(Line(a, row[..k])) + Whole(Line(x, row[k..]))
  {
    assert ([a] + row)[..i] == [a] + row[..k] && ([a] + row)[i..] == row[k..];
  }

  /** A character joins its line. */
  lemma InsertInLine<T>(lines: seq<Line<T>>, r: nat, k: nat, i: nat, x: T)
    requires r < |lines| && k <= |lines[r].cells| && i == Size(lines, r) + k + 1
    ensures i <= |Cells(lines)|
    ensures Cells(Spliced(lines, r, [Line(lines[r].anchor, InsertAt(lines[r].cells, k, x))])) ==
      InsertAt(Cells(lines), i, x)
  {
    var line, j := Line(lines[r].anchor, InsertAt(lines[r].cells, k, x)), k + 1;
    CellsAround(lines, r);
    CellsBetween(lines[..r], [line], lines[r + 1..]);
    CellsOne(line);
    InsertBehindAnchor(lines[r].anchor, lines[r].cells, k, j, x);
    InsertInSlice(Cells(lines[..r]), Whole(lines[r]), Cells(lines[r + 1..]), j, i, x);
  }

  /** A newline cuts its line in two. */
  lemma SplitLine<T>(lines: seq<Line<T>>, r: nat, k: nat, i: nat, x: T)
    requires r < |lines| && k <= |lines[r].cells| && i == Size(lines, r) + k + 1
    ensures i <= |Cells(lines)|
    ensures Cells(Spliced(lines, r, [Line(lines[r].anchor, lines[r].cells[..k]), Line(x, lines[r].cells[k..])])) ==
      InsertAt(Cells(lines), i, x)
  {
    var a, b, j := Line(lines[r].anchor, lines[r].cells[..k]), Line(x, lines[r].cells[k..]), k + 1;
    CellsAround(lines, r);
    CellsBetween(lines[..r], [a, b], lines[r + 1..]);
    CellsTwo(a, b);
    InsertBehindAnchor(lines[r].anchor, lines[r].cells, k, j, x);
    InsertInSlice(Cells(lines[..r]), Whole(lines[r]), Cells(lines[r + 1..]), j, i, x);
  }

  function Without<T>(s: seq<T>, i: nat): seq<T>
    requires i < |s|
  {
    s[..i] + s[i + 1..]
  }

  lemma DropBehindAnchor<T>(a: T, row: seq<T>, k: nat, i: nat)
    requires k < |row| && i == k + 1
    ensures Whole(Line(a, row))[i] == row[k] && Without(Whole(Line(a, row)), i) == Whole(Line(a, Without(row, k)))
  {
    assert ([a] + row)[..i] == [a] + row[..k] && ([a] + row)[i + 1..] == row[i..];
  }

  /** A character leaves its line. */
  lemma DropInLine<T>(lines: seq<Line<T>>, r: nat, k: nat, i: nat)
    requires r < |lines| && k < |lines[r].cells| && i == Size(lines, r) + k + 1
    ensures i < |Cells(lines)| && Cells(lines)[i] == lines[r].cells[k]
    ensures Cells(Spliced(lines, r, [Line(lines[r].anchor, Without(lines[r].cells, k))])) == Without(Cells(lines), i)
  {
    var line, j := Line(lines[r].anchor, Without(lines[r].cells, k)), k + 1;
    CellsAround(lines, r);
    CellsBetween(lines[..r], [line], lines[r + 1..]);
    CellsOne(line);
    DropBehindAnchor(lines[r].anchor, lines[r].cells, k, j);
    InMiddle(Cells(lines[..r]), Whole(lines[r]), Cells(lines[r + 1..]), j, i);
  }

  lemma JoinRows<T>(a: Line<T>, b: Line<T>, i: nat)
    requires i == |a.cells| + 1
    ensures (Whole(a) + Whole(b))[i] == b.anchor
    ensures Without(Whole(a) + Whole(b), i) == Whole(Line(a.anchor, a.cells + b.cells))
  {
    assert (Whole(a) + Whole(b))[..i] == Whole(a);
    assert (Whole(a) + Whole(b))[i + 1..] == b.cells;
  }

  /** The next line moves up behind this one; its anchor goes. */
  lemma JoinLines<T>(lines: seq<Line<T>>, r: nat, i: nat)
    requires r + 1 < |lines| && i == Size(lines, r) + |lines[r].cells| + 1
    ensures i < |Cells(lines)| && Cells(lines)[i] == lines[r + 1].anchor
    ensures Cells(lines[..r] + [Line(lines[r].anchor, lines[r].cells + lines[r + 1].cells)] + lines[r + 2..]) ==
      Without(Cells(lines), i)
  {
    var a, b, j := lines[r], lines[r + 1], |lines[r].cells| + 1;
    var line := Line(a.anchor, a.cells + b.cells);
    CellsAroundTwo(lines, r);
    CellsBetween(lines[..r], [line], lines[r + 2..]);
    CellsOne(line);
    JoinRows(a, b, j);
    InMiddle(Cells(lines[..r]), Whole(a) + Whole(b), Cells(lines[r + 2..]), j, i);
  }

  lemma LastLine<T>(lines: seq<Line<T>>, r: nat)
    requires r < |lines|
    ensures Size(lines, r) + |lines[r].cells| + 1 == |Cells(lines)| <==> r + 1 == |lines|
  {
    SizeNext(lines, r);
    if r + 1 == |lines| { assert lines[..r + 1] == lines; } else { SizeNext(lines, r + 1); }
  }

  /** Every line but the first starts with a newline, and no newline stands anywhere else. */
  predicate LinesOk<T>(lines: seq<Line<T>>, v: T -> char) {
    && lines != [] && (forall r :: 0 <= r < |lines| ==> Unbroken(lines[r].cells, v))
    && forall r :: 1 <= r < |lines| ==> v(lines[r].anchor) == '\n'
  }

  predicate Unbroken<T>(cells: seq<T>, v: T -> char) {
    forall c :: 0 <= c < |cells| ==> v(cells[c]) != '\n'
  }

  lemma UnbrokenInsert<T>(cells: seq<T>, v: T -> char, k: nat, x: T)
    requires k <= |cells| && Unbroken(cells, v) && v(x) != '\n'
    ensures Unbroken(InsertAt(cells, k, x), v)
  {
    InsertShifts(cells, k, x);
  }

  /** Other lines in the place of line `r`. */
  lemma SplicedOk<T>(lines: seq<Line<T>>, r: nat, mid: seq<Line<T>>, v: T -> char)
    requires LinesOk(lines, v) && r < |lines| && LinesOk(mid, v) && mid[0].anchor == lines[r].anchor
    ensures LinesOk(Spliced(lines, r, mid), v)
  {
    var lines' := Spliced(lines, r, mid);
    forall q | 0 <= q < |lines'| ensures Unbroken(lines'[q].cells, v) && (q > 0 ==> v(lines'[q].anchor) == '\n') {
      if q < r { assert lines'[q] == lines[q]; }
      else if q < r + |mid| { assert lines'[q] == mid[q - r]; }
      else { assert lines'[q] == lines[q - |mid| + 1]; }
    }
  }

  // ----- One division -----

  /** The lines are determined by the cells: there is one way to cut them before each newline. */
  lemma {:induction false} LinesUnique<T>(lines: seq<Line<T>>, lines': seq<Line<T>>, v: T -> char)
    requires LinesOk(lines, v) && LinesOk(lines', v) && Cells(lines) == Cells(lines')
    ensures lines == lines'
  {
    var a, b := lines[0], lines'[0];
    var rest, rest' := Cells(lines[1..]), Cells(lines'[1..]);
    TailOfConcat(Whole(a), rest);
    TailOfConcat(Whole(b), rest');
    assert Whole(a) + rest == Whole(b) + rest';
    BreakBounds(a.cells, rest, b.cells, rest', v);
    BreakBounds(b.cells, rest', a.cells, rest, v);
    SamePrefix(a.cells, rest, b.cells, rest');
    if |lines| > 1 && |lines'| > 1 {
      LinesUnique(lines[1..], lines'[1..], v);
    }
    assert lines == [a] + lines[1..] && lines' == [b] + lines'[1..];
  }

  /** What is left of the cells starts with a newline, so the other side's line ends here at the latest. */
  lemma BreakBounds<T>(row: seq<T>, rest: seq<T>, row': seq<T>, rest': seq<T>, v: T -> char)
    requires row + rest == row' + rest' && Unbroken(row', v) && (rest != [] ==> v(rest[0]) == '\n')
    ensures |row'| <= |row|
  {
    var f := row + rest;
    assert forall k :: 0 <= k < |row'| ==> f[k] == row'[k];
    assert rest != [] ==> f[|row|] == rest[0];
  }

  lemma SamePrefix<T>(row: seq<T>, rest: seq<T>, row': seq<T>, rest': seq<T>)
    requires row + rest == row' + rest' && |row| == |row'|
    ensures row == row' && rest == rest'
  {
    assert (row + rest)[..|row|] == row && (row' + rest')[..|row'|] == row';
    assert (row + rest)[|row|..] == rest && (row' + rest')[|row'|..] == rest';
  }

  // ----- Placing and taking -----

  /** Puts a cell behind column `col`; a newline takes the rest of the line with it. */
  method Place<T>(lines: seq<Line<T>>, row: nat, col: nat, cell: T, v: T -> char,
                  ghost i: nat) returns (lines': seq<Line<T>>)
    requires LinesOk(lines, v) && row < |lines| && col <= |lines[row].cells| && i == Size(lines, row) + col + 1
    ensures LinesOk(lines', v) && i <= |Cells(lines)| && Cells(lines') == InsertAt(Cells(lines), i, cell)
  {
    var line := lines[row];
    if v(cell) == '\n' {
      SplitLine(lines, row, col, i, cell);
      SplicedOk(lines, row, [Line(line.anchor, line.cells[..col]), Line(cell, line.cells[col..])], v);
      UpdateAndInsert(lines, row, Line(line.anchor, line.cells[..col]), Line(cell, line.cells[col..]));
      var moved := line.cells[col..];
      lines' := lines[row := Line(line.anchor, line.cells[..col])];
      lines' := lines'[..row + 1] + [Line(cell, moved)] + lines'[row + 1..];
    } else {
      InsertInLine(lines, row, col, i, cell);
      UnbrokenInsert(line.cells, v, col, cell);
      SplicedOk(lines, row, [Line(line.anchor, InsertAt(line.cells, col, cell))], v);
      UpdateIsSpliced(lines, row, Line(line.anchor, InsertAt(line.cells, col, cell)));
      lines' := lines[row := Line(line.anchor, InsertAt(line.cells, col, cell))];
    }
  }

  /** Takes the character at column `col` out of its line, or the line's newline out of the document. */
  method Take<T>(lines: seq<Line<T>>, row: nat, col: nat, v: T -> char, ghost i: nat) returns (cell: T,
                 lines': seq<Line<T>>)
    requires LinesOk(lines, v) && row < |lines| && col <= |lines[row].cells| && i == Size(lines, row) + col + 1
    requires col < |lines[row].cells| || row + 1 < |lines|
    ensures LinesOk(lines', v) && i < |Cells(lines)| && cell == Cells(lines)[i]
    ensures Cells(lines') == Without(Cells(lines), i)
  {
    var line := lines[row];
    if col < |line.cells| {
      DropInLine(lines, row, col, i);
      UpdateIsSpliced(lines, row, Line(line.anchor, Without(line.cells, col)));
      lines' := lines[row := Line(line.anchor, line.cells[..col] + line.cells[col + 1..])];
      cell := line.cells[col];
    } else {
      var next := lines[row + 1];
      JoinLines(lines, row, i);
      UpdateAndDrop(lines, row, Line(line.anchor, line.cells + next.cells));
      lines' := lines[row := Line(line.anchor, line.cells + next.cells)];
      lines' := lines'[..row + 1] + lines'[row + 2..];
      cell := next.anchor;
    }
  }

  /** The row and column of `offset` when a cell follows there: a character, or the next line's anchor. */
  method LocateNext<T>(lines: seq<Line<T>>, offset: nat) returns (found: Option<(nat, nat)>)
    ensures found.None? <==> offset + 1 >= |Cells(lines)|
    ensures found.Some? ==> (
      var (row, col) := found.value;
      row < |lines| && col <= |lines[row].cells| && Size(lines, row) + col == offset &&
        (col < |lines[row].cells| || row + 1 < |lines|))
  {
    found := Locate(lines, offset);
    if found.Some? {
      var (row, col) := found.value;
      LastLine(lines, row);
      SizeNext(lines, row);
      if col == |lines[row].cells| && row + 1 == |lines| {
        return None;
      }
    }
  }

  // ----- Reading -----

  function Values<T>(s: seq<T>, v: T -> char): (text: string)
    ensures |text| == |s| && forall i :: 0 <= i < |s| ==> text[i] == v(s[i])
  {
    seq(|s|, i requires 0 <= i < |s| => v(s[i]))
  }

  lemma TextStep<T>(lines: seq<Line<T>>, r: nat, v: T -> char)
    requires r < |lines|
    ensures Values(Cells(lines[..r + 1]), v) ==
      Values(Cells(lines[..r]), v) + ([v(lines[r].anchor)] + Values(lines[r].cells, v))
  {
    SizeNext(lines, r);
    assert Values(Whole(lines[r]), v) == [v(lines[r].anchor)] + Values(lines[r].cells, v);
    ValuesConcat(Cells(lines[..r]), Whole(lines[r]), v);
  }

  lemma TextNext<T>(lines: seq<Line<T>>, r: nat, v: T -> char, head: string, text: string)
    requires r < |lines| && v(lines[r].anchor) == '\n' && Values(Cells(lines[..r]), v) == head + text
    ensures Values(Cells(lines[..r + 1]), v) == head + (text + ['\n'] + Values(lines[r].cells, v))
  {
    TextStep(lines, r, v);
    assert head + text + (['\n'] + Values(lines[r].cells, v)) == head + (text + ['\n'] + Values(lines[r].cells, v));
  }

  lemma ValuesConcat<T>(a: seq<T>, b: seq<T>, v: T -> char)
    ensures Values(a + b, v) == Values(a, v) + Values(b, v)
  {}

  /** The lines joined by newlines are the cells' values after the first anchor. */
  method CurrentText<T>(lines: seq<Line<T>>, v: T -> char) returns (text: string)
    requires LinesOk(lines, v)
    ensures text == Values(Cells(lines), v)[1..]
  {
    TextStep(lines, 0, v);
    text := Values(lines[0].cells, v);
    var r := 1;
    while r < |lines|
      invariant 1 <= r <= |lines| && Values(Cells(lines[..r]), v) == [v(lines[0].anchor)] + text
    {
      TextNext(lines, r, v, [v(lines[0].anchor)], text);
      text := text + ['\n'] + Values(lines[r].cells, v);
      r := r + 1;
    }
    assert lines[..r] == lines;
  }
}
