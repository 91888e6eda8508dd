/** One file's replicated state, patched in place. Every method is proved against the flat list
    of `Document`; the row hints that callers pass do not occur in any result. */
module SharFileModule {
  import opened Types
  import opened CharTree
  import opened Lists
  import opened Document
  import opened Shape
  import opened Rows

  type Position = (nat, nat)

  // ----- Positions -----

  function PositionIn(row: seq<Ident>, who: Ident): (r: Option<nat>)
    ensures r.None? <==> who !in row
    ensures r.Some? ==> r.value < |row| && row[r.value] == who && who !in row[..r.value]
  {
    if who in row then Some(IndexOf(row, who)) else None
  }

  predicate InRows(rows: Projection, pos: Position) {
    pos.0 < |rows| && pos.1 < |rows[pos.0]|
  }

  /** The place of `pos` in the flat list. */
  function Spot(rows: Projection, pos: Position): nat
    requires pos.0 <= |rows|
  {
    Offset(rows, pos.0) + pos.1
  }

  ghost predicate At(rows: Projection, pos: Position, who: Ident) {
    InRows(rows, pos) && rows[pos.0][pos.1] == who
  }

  lemma AtSpot(rows: Projection, pos: Position, who: Ident)
    requires At(rows, pos, who)
    ensures Spot(rows, pos) < |Flat(rows)| && Flat(rows)[Spot(rows, pos)] == who
    ensures Distinct(Flat(rows)) ==> IndexOf(Flat(rows), who) == Spot(rows, pos)
  {
    RowElement(rows, pos.0, pos.1);
    if Distinct(Flat(rows)) { IndexUnique(Flat(rows), Spot(rows, pos)); }
  }

  lemma {:induction false} OffsetGrows(rows: Projection, r: nat, q: nat)
    requires r < q <= |rows|
    ensures Offset(rows, r) + |rows[r]| <= Offset(rows, q)
    decreases q - r
  {
    assert rows[..q] == rows[..q - 1] + [rows[q - 1]];
    FlatConcat(rows[..q - 1], [rows[q - 1]]);
    FlatOne(rows[q - 1]);
    if r < q - 1 { OffsetGrows(rows, r, q - 1); }
  }

  /** An identity listed once has one position. */
  lemma PositionUnique(rows: Projection, pos: Position, pos': Position, who: Ident)
    requires Distinct(Flat(rows)) && At(rows, pos, who) && At(rows, pos', who)
    ensures pos == pos'
  {
    AtSpot(rows, pos, who);
    AtSpot(rows, pos', who);
    if pos.0 < pos'.0 { OffsetGrows(rows, pos.0, pos'.0); }
    if pos'.0 < pos.0 { OffsetGrows(rows, pos'.0, pos.0); }
  }

  function Distance(a: nat, b: nat): nat {
    if a < b then b - a else a - b
  }

  // ----- Rows against the flat list -----

  /** What ends a tie-break scan: another parent, or a sibling that does not outrank the newcomer. */
  predicate Halts(rel: Relation, next: Ident, par: Ident, me: Ident) {
    rel.parent != par || next.id < me.id || (next.id == me.id && next.peer >= me.peer)
  }

  /** Where a scan along one row ends. */
  function RowScan(chars: Chars, row: seq<Ident>, k: nat, par: Ident, me: Ident): (place: nat)
    requires k <= |row| && forall x :: x in row ==> x in chars
    ensures k <= place <= |row|
    decreases |row| - k
  {
    if k < |row| && !Halts(chars[row[k]], row[k], par, me) then RowScan(chars, row, k + 1, par, me) else k
  }

  /** Not in front of a line break: where a scan or a climb may start in row `r`. */
  predicate Inside(r: nat, c: nat) {
    c >= 1 || r == 0
  }

  lemma HeadOrInside(chars: Chars, rows: Projection, r: nat, c: nat)
    requires RowsOk(chars, rows) && r < |rows| && c < |rows[r]|
    ensures Inside(r, c) ==> !Breaks(chars, rows[r][c])
    ensures !Inside(r, c) ==> Breaks(chars, rows[r][c])
  {}

  /** A scan never leaves its row: what follows is a line break. */
  lemma {:induction false} RowScanIsScan(d: Doc, rows: Projection, r: nat, k: nat, pos: nat, par: Ident, me: Ident)
    requires d.flat == Flat(rows) && RowsOk(d.chars, rows) && Points(rows, r, k, pos) && Inside(r, k)
    requires RowRecorded(d.chars, rows, r)
    ensures pos <= |d.flat| && Points(rows, r, RowScan(d.chars, rows[r], k, par, me), Scan(d, pos, par, me))
    decreases |rows[r]| - k
  {
    PointsAt(rows, r, k, pos);
    if k == |rows[r]| {
      PointsEnd(d.chars, rows, r, pos);
    } else {
      HeadOrInside(d.chars, rows, r, k);
      RowScanIsScan(d, rows, r, k + 1, pos + 1, par, me);
    }
  }

  lemma {:induction false} RowStartIs(d: Doc, rows: Projection, r: nat, c: nat, pos: nat)
    requires d.flat == Flat(rows) && RowsOk(d.chars, rows) && Points(rows, r, c, pos) && Inside(r, c)
    ensures pos <= |d.flat| && RowStart(d, pos) == Offset(rows, r)
    decreases c
  {
    PointsAt(rows, r, c, pos);
    if c > 0 {
      PointsAt(rows, r, c - 1, pos - 1);
      HeadOrInside(d.chars, rows, r, c - 1);
      if Inside(r, c - 1) {
        RowStartIs(d, rows, r, c - 1, pos - 1);
      } else {
        OffsetGrows(rows, 0, r);
      }
    }
  }

  lemma {:induction false} RowEndIs(d: Doc, rows: Projection, r: nat, c: nat, pos: nat)
    requires d.flat == Flat(rows) && RowsOk(d.chars, rows) && Points(rows, r, c, pos) && Inside(r, c)
    ensures pos <= |d.flat| && RowEnd(d, pos) == Offset(rows, r) + |rows[r]|
    decreases |rows[r]| - c
  {
    PointsAt(rows, r, c, pos);
    if c == |rows[r]| {
      PointsEnd(d.chars, rows, r, pos);
    } else {
      HeadOrInside(d.chars, rows, r, c);
      RowEndIs(d, rows, r, c + 1, pos + 1);
    }
  }

  /** A character joins row `r` at column `k`. */
  lemma InsertInRow(rows: Projection, r: nat, k: nat, pos: nat, who: Ident)
    requires Points(rows, r, k, pos)
    ensures pos <= |Flat(rows)| && Flat(rows[r := InsertAt(rows[r], k, who)]) == InsertAt(Flat(rows), pos, who)
  {
    FlatAround(rows, r);
    FlatUpdate(rows, r, InsertAt(rows[r], k, who));
    InsertInSlice(Flat(rows[..r]), rows[r], Flat(rows[r + 1..]), k, pos, who);
  }

  lemma InsertKeepsRows(chars: Chars, rows: Projection, r: nat, k: nat, who: Ident)
    requires r < |rows| && k <= |rows[r]| && Inside(r, k) && RowsOk(chars, rows) && !Breaks(chars, who)
    ensures RowsOk(chars, rows[r := InsertAt(rows[r], k, who)])
  {
    InsertShifts(rows[r], k, who);
  }

  function HeadFirst(rows: Projection, r: nat, k: nat, who: Ident): Projection
    requires r < |rows| && k <= |rows[r]|
  {
    rows[..r] + [rows[r][..k], [who] + rows[r][k..]] + rows[r + 1..]
  }

  function TailFirst(rows: Projection, r: nat, k: nat, who: Ident): Projection
    requires r < |rows| && k <= |rows[r]|
  {
    rows[..r] + [[who] + rows[r][k..], rows[r][..k]] + rows[r + 1..]
  }

  /** Cutting a row and putting the tail behind the head inserts the line break at the cut. */
  lemma HeadFirstInserts(rows: Projection, r: nat, k: nat, pos: nat, who: Ident)
    requires Points(rows, r, k, pos)
    ensures pos <= |Flat(rows)| && Flat(HeadFirst(rows, r, k, who)) == InsertAt(Flat(rows), pos, who)
  {
    HeadFirstFlat(rows, r, k, who);
    FlatAround(rows, r);
    InsertInSlice(Flat(rows[..r]), rows[r], Flat(rows[r + 1..]), k, pos, who);
  }

  lemma HeadFirstFlat(rows: Projection, r: nat, k: nat, who: Ident)
    requires r < |rows| && k <= |rows[r]|
    ensures Flat(HeadFirst(rows, r, k, who)) == Flat(rows[..r]) + InsertAt(rows[r], k, who) + Flat(rows[r + 1..])
  {
    FlatReplace(rows, r, [rows[r][..k], [who] + rows[r][k..]]);
    FlatTwo(rows[r][..k], [who] + rows[r][k..]);
    assert rows[r][..k] + ([who] + rows[r][k..]) == InsertAt(rows[r], k, who);
  }

  lemma HeadFirstKeepsRows(chars: Chars, rows: Projection, r: nat, k: nat, who: Ident)
    requires r < |rows| && 0 < k <= |rows[r]| && RowsOk(chars, rows) && Breaks(chars, who)
    ensures RowsOk(chars, HeadFirst(rows, r, k, who))
  {
    var rows' := HeadFirst(rows, r, k, who);
    forall q | 0 <= q < |rows'| ensures rows'[q] != [] && (q > 0 ==> Breaks(chars, rows'[q][0])) &&
        forall c :: 1 <= c < |rows'[q]| ==> !Breaks(chars, rows'[q][c]) {
      if q > r + 1 { assert rows'[q] == rows[q - 1]; }
    }
  }

  /** Cutting a row and putting the tail in front of the head displaces the head. */
  lemma TailFirstDisplaces(d: Doc, rows: Projection, r: nat, c: nat, pos: nat, who: Ident)
    requires d.flat == Flat(rows) && RowsOk(d.chars, rows) && Points(rows, r, c, pos) && Inside(r, c)
    ensures pos <= |d.flat| && Flat(TailFirst(rows, r, c, who)) == Displaced(d, pos, who)
  {
    RowStartIs(d, rows, r, c, pos);
    RowEndIs(d, rows, r, c, pos);
    FlatAround(rows, r);
    DisplacedParts(d, Flat(rows[..r]), rows[r], Flat(rows[r + 1..]), c, pos, who);
    TailFirstFlat(rows, r, c, who);
  }

  lemma TailFirstFlat(rows: Projection, r: nat, c: nat, who: Ident)
    requires r < |rows| && c <= |rows[r]|
    ensures Flat(TailFirst(rows, r, c, who)) ==
      Flat(rows[..r]) + ([who] + rows[r][c..] + rows[r][..c]) + Flat(rows[r + 1..])
  {
    FlatReplace(rows, r, [[who] + rows[r][c..], rows[r][..c]]);
    FlatTwo([who] + rows[r][c..], rows[r][..c]);
  }

  lemma DisplacedParts(d: Doc, front: seq<Ident>, row: seq<Ident>, rest: seq<Ident>, c: nat, pos: nat, who: Ident)
    requires d.flat == front + row + rest && c <= |row| && pos == |front| + c
    requires RowStart(d, pos) == |front| && RowEnd(d, pos) == |front| + |row|
    ensures Displaced(d, pos, who) == front + ([who] + row[c..] + row[..c]) + rest
  {
    Slices(front, row, rest, c, pos, RowEnd(d, pos));
    Regrouped(front, [who], row[c..], row[..c], rest);
  }

  lemma Regrouped<T>(a: seq<T>, b: seq<T>, c: seq<T>, e: seq<T>, f: seq<T>)
    ensures a + b + c + e + f == a + (b + c + e) + f
  {}

  function Clamped(rows: Projection, hint: nat): nat {
    if hint < |rows| then hint else 0
  }

  /** `r` is what a search for `who` that starts at row `hint` may answer: the first place in the
      nearest row that lists it, an error when no row does. The sentinel is not searched for. */
  ghost predicate Finds(rows: Projection, hint: nat, who: Ident, r: Result<Position>) {
    if who == ROOT then r == Ok((0, 0))
    else match r
      case Ok(pos) =>
        At(rows, pos, who) && who !in rows[pos.0][..pos.1] &&
        forall q :: 0 <= q < |rows| && Distance(q, Clamped(rows, hint)) < Distance(pos.0, Clamped(rows, hint)) ==>
          who !in rows[q]
      case Err(e) => e == OutOfBounds && forall q :: 0 <= q < |rows| ==> who !in rows[q]
  }

  /** No row that is nearer to the hint lists the identity. A hint beyond the last row counts as row 0. */
  lemma FindsNearest(rows: Projection, hint: nat, who: Ident, r: Result<Position>, q: nat)
    requires Finds(rows, hint, who, r) && who != ROOT && r.Ok? && q < |rows| && who in rows[q]
    ensures var from := if hint < |rows| then hint else 0;
      (if r.value.0 < from then from - r.value.0 else r.value.0 - from) <= (if q < from then from - q else q - from)
  {
    assert Distance(q, Clamped(rows, hint)) >= Distance(r.value.0, Clamped(rows, hint));
  }

  /** On a well-formed file every hint leads to the same answer: the one position of a live
      identity, an error for any other. */
  lemma HintFree(chars: Chars, rows: Projection, hint: nat, who: Ident, r: Result<Position>, hint': nat,
                 r': Result<Position>)
    requires WellFormed(Doc(chars, Flat(rows))) && RowsOk(chars, rows)
    requires Finds(rows, hint, who, r) && Finds(rows, hint', who, r')
    ensures r == r' && (r.Ok? <==> Live(chars, who)) && (r.Ok? ==> At(rows, r.value, who))
  {
    FlatSplit(rows, 0);
    FlatElements(rows, who);
    if r.Ok? && r'.Ok? && who != ROOT { PositionUnique(rows, r.value, r'.value, who); }
  }

  /** A line break under a tombstone. */
  predicate Displaces(chars: Chars, crdt: Crdt)
    requires crdt.relation.parent in chars
  {
    IsLineBreak(crdt.relation.value) && chars[crdt.relation.parent].deleted
  }

  /** Row `r` is cut at column `c`, which is where the children of the parent start, and the newcomer
      heads the tail. */
  ghost predicate CutAt(d: Doc, rows: Projection, rows': Projection, crdt: Crdt, r: nat, c: nat)
    requires Sound(d) && crdt.relation.parent in d.chars
  {
    Points(rows, r, c, Start(d, crdt.relation.parent)) && rows' == TailFirst(rows, r, c, crdt.who)
  }

  /** A line break under a tombstone is above the head of the row that it cuts; `pos` is where the head
      has gone. */
  ghost predicate CutAbove(d: Doc, rows: Projection, rows': Projection, crdt: Crdt, pos: Position)
    requires Sound(d) && crdt.relation.parent in d.chars
  {
    exists r, c :: CutAt(d, rows, rows', crdt, r, c) && pos == (r + 1, 0)
  }

  /** `rows'` and `pos` are what an add of `crdt` to `d` with `rows` leaves behind. */
  ghost predicate Landed(d: Doc, crdt: Crdt, rows: Projection, rows': Projection, pos: Position)
    requires WellFormed(d) && Lands(d.chars, crdt)
  {
    var d' := Inserted(d, crdt);
    d'.flat == Flat(rows') &&
    if Displaces(d.chars, crdt) then CutAbove(d, rows, rows', crdt, pos)
    else RowsOk(d'.chars, rows') && At(rows', pos, crdt.who)
  }

  ghost predicate Represents(rows: Projection, d: Doc) {
    d.flat == Flat(rows) && WellFormed(d) && RowsOk(d.chars, rows)
  }

  /** Files that hold one document have the same rows, so they compare equal. */
  lemma SameDocumentSameRows(rows: Projection, d: Doc, rows': Projection, d': Doc)
    requires Represents(rows, d) && Represents(rows', d') && d == d'
    ensures rows == rows'
  {
    RowsUnique(d.chars, rows, rows');
  }

  lemma SentinelStaysFirst(d: Doc, crdt: Crdt)
    requires WellFormed(d) && Lands(d.chars, crdt) && Live(d.chars, crdt.relation.parent)
    ensures Inserted(d, crdt).flat[0] == ROOT != crdt.who
  {
    InsertShifts(d.flat, Slot(d, crdt), crdt.who);
  }

  /** Under a live parent a newcomer heads a row exactly if it is one of the seven line breaks. It is
      then right behind its parent, whatever siblings there are. */
  lemma LineBreakHeadsRow(d: Doc, crdt: Crdt, rows: Projection, rows': Projection, pos: Position)
    requires WellFormed(d) && Lands(d.chars, crdt) && Live(d.chars, crdt.relation.parent)
    requires Landed(d, crdt, rows, rows', pos)
    ensures pos.1 == 0 <==>
      crdt.relation.value in {'\n', '\r', '\U{0B}', '\U{0C}', '\U{85}', '\U{2028}', '\U{2029}'}
    ensures pos.1 == 0 ==>
      Flat(rows') == InsertAt(d.flat, IndexOf(d.flat, crdt.relation.parent) + 1, crdt.who)
  {
    SentinelStaysFirst(d, crdt);
    AtSpot(rows', pos, crdt.who);
    assert Spot(rows', (0, 0)) == 0;
    HeadOrInside(Inserted(d, crdt).chars, rows', pos.0, pos.1);
  }

  lemma LandedShape(d: Doc, crdt: Crdt, rows: Projection, rows': Projection, pos: Position)
    requires WellFormed(d) && Lands(d.chars, crdt) && Landed(d, crdt, rows, rows', pos)
    ensures Represents(rows', Inserted(d, crdt)) <==> Anchored(d.chars, crdt)
  {
    AddKeepsWellFormedIff(d, crdt);
  }

  /** `pos` is where a live `par` is, or where the children of a tombstone start. */
  ghost predicate Anchor(d: Doc, rows: Projection, par: Ident, pos: Position)
    requires Sound(d) && par in d.chars
  {
    if d.chars[par].deleted
    then Points(rows, pos.0, pos.1, Start(d, par)) && Inside(pos.0, pos.1)
    else At(rows, pos, par) && Spot(rows, pos) + 1 == Start(d, par)
  }

  lemma AnchorFits(d: Doc, rows: Projection, par: Ident, pos: Position)
    requires Represents(rows, d) && par in d.chars && Anchor(d, rows, par, pos)
    ensures pos.0 < |rows| && rows[pos.0] != [] && pos.1 + (if d.chars[par].deleted then 0 else 1) <= |rows[pos.0]|
  {}

  /** The scan along row `r` ends where the children of the tombstone `c` start. */
  lemma ClimbPlace(d: Doc, rows: Projection, r: nat, k: nat, c: Ident, par: Ident, place: nat)
    requires Sound(d) && RowsOk(d.chars, rows) && d.flat == Flat(rows) && c in d.chars && d.chars[c].deleted
    requires par == d.chars[c].parent && Points(rows, r, k, ClimbBase(d, c)) && Inside(r, k)
    requires RowRecorded(d.chars, rows, r) && place == RowScan(d.chars, rows[r], k, par, c)
    ensures Points(rows, r, place, Start(d, c))
  {
    RowScanIsScan(d, rows, r, k, ClimbBase(d, c), par, c);
  }

  predicate RowRecorded(chars: Chars, rows: Projection, r: nat) {
    r < |rows| && forall x :: x in rows[r] ==> x in chars
  }

  lemma RowIsRecorded(chars: Chars, rows: Projection, r: nat)
    requires r < |rows| && forall x :: x in Flat(rows) ==> x in chars
    ensures RowRecorded(chars, rows, r)
  {
    FlatAround(rows, r);
  }

  lemma BehindLive(d: Doc, rows: Projection, r: nat, c: nat, crdt: Crdt)
    requires Represents(rows, d) && crdt.relation.parent in d.chars && IsLineBreak(crdt.relation.value)
    requires !d.chars[crdt.relation.parent].deleted && At(rows, (r, c), crdt.relation.parent)
    ensures Points(rows, r, c + 1, Slot(d, crdt))
  {
    AtSpot(rows, (r, c), crdt.relation.parent);
  }

  lemma SplitFlat(d: Doc, rows: Projection, r: nat, k: nat, pos: nat, crdt: Crdt)
    requires Sound(d) && d.flat == Flat(rows) && Lands(d.chars, crdt) && IsLineBreak(crdt.relation.value)
    requires !d.chars[crdt.relation.parent].deleted && Points(rows, r, k, pos) && pos == Slot(d, crdt)
    ensures Inserted(d, crdt).flat == Flat(HeadFirst(rows, r, k, crdt.who))
  {
    HeadFirstInserts(rows, r, k, pos, crdt.who);
  }

  lemma LineBreakLandsLive(d: Doc, rows: Projection, r: nat, c: nat, crdt: Crdt)
    requires Represents(rows, d) && Lands(d.chars, crdt) && IsLineBreak(crdt.relation.value)
    requires !d.chars[crdt.relation.parent].deleted && At(rows, (r, c), crdt.relation.parent)
    ensures Landed(d, crdt, rows, HeadFirst(rows, r, c + 1, crdt.who), (r + 1, 0))
  {
    var chars' := d.chars[crdt.who := crdt.relation];
    BehindLive(d, rows, r, c, crdt);
    SplitFlat(d, rows, r, c + 1, Slot(d, crdt), crdt);
    RowsFrame(d, rows, crdt);
    HeadFirstKeepsRows(chars', rows, r, c + 1, crdt.who);
  }

  lemma LineBreakLandsDead(d: Doc, rows: Projection, r: nat, c: nat, crdt: Crdt)
    requires Represents(rows, d) && Lands(d.chars, crdt) && IsLineBreak(crdt.relation.value)
    requires d.chars[crdt.relation.parent].deleted
    requires Points(rows, r, c, Start(d, crdt.relation.parent)) && Inside(r, c)
    ensures Landed(d, crdt, rows, TailFirst(rows, r, c, crdt.who), (r + 1, 0))
  {
    assert Inserted(d, crdt).flat == Flat(TailFirst(rows, r, c, crdt.who)) by {
      TailFirstDisplaces(d, rows, r, c, Start(d, crdt.relation.parent), crdt.who);
    }
    assert CutAt(d, rows, TailFirst(rows, r, c, crdt.who), crdt, r, c);
  }

  lemma LineBreakLands(d: Doc, rows: Projection, r: nat, c: nat, crdt: Crdt, rows': Projection)
    requires Represents(rows, d) && Lands(d.chars, crdt) && IsLineBreak(crdt.relation.value)
    requires Anchor(d, rows, crdt.relation.parent, (r, c)) && r < |rows|
    requires c + (if d.chars[crdt.relation.parent].deleted then 0 else 1) <= |rows[r]|
    requires rows' ==
      if d.chars[crdt.relation.parent].deleted then TailFirst(rows, r, c, crdt.who)
      else HeadFirst(rows, r, c + 1, crdt.who)
    ensures Landed(d, crdt, rows, rows', (r + 1, 0))
  {
    if d.chars[crdt.relation.parent].deleted {
      LineBreakLandsDead(d, rows, r, c, crdt);
    } else {
      LineBreakLandsLive(d, rows, r, c, crdt);
    }
  }

  lemma CharacterLands(d: Doc, rows: Projection, r: nat, k: nat, crdt: Crdt)
    requires Represents(rows, d) && Lands(d.chars, crdt) && !IsLineBreak(crdt.relation.value)
    requires Points(rows, r, k, Slot(d, crdt)) && Inside(r, k)
    ensures Landed(d, crdt, rows, rows[r := InsertAt(rows[r], k, crdt.who)], (r, k))
  {
    CharacterFlat(d, rows, r, k, Slot(d, crdt), crdt);
    CharacterKeepsRows(d, rows, r, k, crdt);
  }

  lemma CharacterFlat(d: Doc, rows: Projection, r: nat, k: nat, pos: nat, crdt: Crdt)
    requires Sound(d) && d.flat == Flat(rows) && Lands(d.chars, crdt) && !IsLineBreak(crdt.relation.value)
    requires Points(rows, r, k, pos) && pos == Slot(d, crdt)
    ensures Inserted(d, crdt).flat == Flat(rows[r := InsertAt(rows[r], k, crdt.who)])
  {
    InsertInRow(rows, r, k, pos, crdt.who);
  }

  lemma CharacterKeepsRows(d: Doc, rows: Projection, r: nat, k: nat, crdt: Crdt)
    requires Represents(rows, d) && Lands(d.chars, crdt) && !IsLineBreak(crdt.relation.value) && r < |rows|
    requires k <= |rows[r]| && Inside(r, k)
    ensures RowsOk(Inserted(d, crdt).chars, rows[r := InsertAt(rows[r], k, crdt.who)])
  {
    RowsFrame(d, rows, crdt);
    InsertKeepsRows(Inserted(d, crdt).chars, rows, r, k, crdt.who);
  }

  /** Scanning the anchor's row finds the slot of a character; that it is recorded by then does not matter. */
  lemma CharacterPlace(d: Doc, rows: Projection, r: nat, k: nat, crdt: Crdt)
    requires Represents(rows, d) && Lands(d.chars, crdt) && !IsLineBreak(crdt.relation.value)
    requires Points(rows, r, k, Start(d, crdt.relation.parent)) && Inside(r, k)
    ensures RowRecorded(Inserted(d, crdt).chars, rows, r)
    ensures Points(rows, r, RowScan(Inserted(d, crdt).chars, rows[r], k, crdt.relation.parent, crdt.who), Slot(d, crdt))
  {
    ScanOnceRecorded(d, rows, r, k, Start(d, crdt.relation.parent), crdt);
  }

  lemma ScanOnceRecorded(d: Doc, rows: Projection, r: nat, k: nat, pos: nat, crdt: Crdt)
    requires Represents(rows, d) && Lands(d.chars, crdt) && Points(rows, r, k, pos) && Inside(r, k)
    ensures pos <= |d.flat| && RowRecorded(Inserted(d, crdt).chars, rows, r)
    ensures Points(rows, r, RowScan(Inserted(d, crdt).chars, rows[r], k, crdt.relation.parent, crdt.who),
                   Scan(d, pos, crdt.relation.parent, crdt.who))
  {
    var d' := Doc(Inserted(d, crdt).chars, d.flat);
    RowsFrame(d, rows, crdt);
    RowIsRecorded(d'.chars, rows, r);
    RowScanIsScan(d', rows, r, k, pos, crdt.relation.parent, crdt.who);
    ScanSame(d, d', pos, crdt.relation.parent, crdt.who);
  }

  lemma RowsFrame(d: Doc, rows: Projection, crdt: Crdt)
    requires Represents(rows, d) && Lands(d.chars, crdt)
    ensures RowsOk(Inserted(d, crdt).chars, rows)
  {
    forall r, c | 0 <= r < |rows| && 0 <= c < |rows[r]| ensures rows[r][c] in d.chars && rows[r][c] != crdt.who {
      FlatSplit(rows, r);
      assert rows[r][c] in d.flat;
    }
  }

  // ----- Removes -----

  lemma DroppedFlat(rows: Projection, row: nat, col: nat, pos: nat)
    requires Points(rows, row, col, pos) && col < |rows[row]|
    ensures pos < |Flat(rows)|
    ensures Flat(rows[row := rows[row][..col] + rows[row][col + 1..]]) == Flat(rows)[..pos] + Flat(rows)[pos + 1..]
  {
    FlatAround(rows, row);
    FlatUpdate(rows, row, rows[row][..col] + rows[row][col + 1..]);
    EraseInSlice(Flat(rows[..row]), rows[row], Flat(rows[row + 1..]), col, pos);
  }

  /** Dropping column `col` of row `row` is the flat erase. */
  lemma CharacterLeaves(d: Doc, rows: Projection, row: nat, col: nat, who: Ident)
    requires Represents(rows, d) && At(rows, (row, col), who) && who != ROOT && Live(d.chars, who)
    requires !Breaks(d.chars, who)
    ensures Remove(d, who).flat == Flat(rows[row := rows[row][..col] + rows[row][col + 1..]])
    ensures RowsOk(Remove(d, who).chars, rows[row := rows[row][..col] + rows[row][col + 1..]])
  {
    var pos := Spot(rows, (row, col));
    AtSpot(rows, (row, col), who);
    EraseSplits(d.flat, pos);
    DroppedFlat(rows, row, col, pos);
    OnlyHeadsBreak(d, rows, row, col, who);
    DropKeepsRows(d.chars, rows, row, col);
    TombstoneKeepsRows(d.chars, who, rows[row := rows[row][..col] + rows[row][col + 1..]]);
  }

  /** A remove of the sentinel takes it off the list: nothing of the shape is left. */
  lemma SentinelLeaves(d: Doc, rows: Projection)
    requires Represents(rows, d) && At(rows, (0, 0), ROOT)
    ensures Flat(rows[0 := rows[0][..0] + rows[0][1..]]) == d.flat[1..]
    ensures !Rooted(Tombstoned(d.chars, ROOT))
  {
    DroppedFlat(rows, 0, 0, 0);
    assert d.flat[..0] + d.flat[1..] == d.flat[1..];
  }

  /** What a remove leaves represents a document again unless it was the sentinel's. */
  lemma LeftBehind(d: Doc, who: Ident, rows: Projection)
    requires WellFormed(d) && Live(d.chars, who)
    requires who != ROOT ==> Remove(d, who).flat == Flat(rows) && RowsOk(Tombstoned(d.chars, who), rows)
    requires who == ROOT ==> !Rooted(Tombstoned(d.chars, who))
    ensures Represents(rows, Doc(Tombstoned(d.chars, who), Flat(rows))) <==> who != ROOT
    ensures who != ROOT ==> Doc(Tombstoned(d.chars, who), Flat(rows)) == Remove(d, who)
  {
    RemoveKeepsWellFormed(d, who);
  }

  /** The head of a row is the sentinel or a line break, and nothing else in it is. */
  lemma OnlyHeadsBreak(d: Doc, rows: Projection, row: nat, col: nat, who: Ident)
    requires Represents(rows, d) && At(rows, (row, col), who) && who != ROOT && who in d.chars
    ensures Breaks(d.chars, who) <==> col == 0
    ensures col == 0 ==> row > 0
  {
    FlatSplit(rows, 0);
    assert rows[0][0] == ROOT;
  }

  lemma DropKeepsRows(chars: Chars, rows: Projection, row: nat, col: nat)
    requires RowsOk(chars, rows) && row < |rows| && 0 < col < |rows[row]|
    ensures RowsOk(chars, rows[row := rows[row][..col] + rows[row][col + 1..]])
  {
    var new' := rows[row][..col] + rows[row][col + 1..];
    assert new'[0] == rows[row][0];
    forall c | 1 <= c < |new'| ensures !Breaks(chars, new'[c]) {
      assert new'[c] == rows[row][if c < col then c else c + 1];
    }
  }

  lemma TombstoneKeepsRows(chars: Chars, who: Ident, rows: Projection)
    requires who in chars && RowsOk(chars, rows)
    ensures RowsOk(Tombstoned(chars, who), rows)
  {
    assert forall x :: Breaks(Tombstoned(chars, who), x) <==> Breaks(chars, x);
  }

  /** Joining a row to the one above it, without its line break, is the flat erase. */
  lemma BreakLeaves(d: Doc, rows: Projection, row: nat, col: nat, who: Ident)
    requires Represents(rows, d) && At(rows, (row, col), who) && who != ROOT && Live(d.chars, who)
    requires Breaks(d.chars, who)
    ensures col == 0 && row > 0
    ensures var rows' := rows[row - 1 := rows[row - 1] + rows[row][1..]];
      Remove(d, who).flat == Flat(rows'[..row] + rows'[row + 1..]) &&
        RowsOk(Remove(d, who).chars, rows'[..row] + rows'[row + 1..])
  {
    OnlyHeadsBreak(d, rows, row, col, who);
    JoinedRows(rows, row);
    JoinedIsErased(d, rows, row, who);
    assert RowsOk(Tombstoned(d.chars, who), Joined(rows, row)) by {
      JoinedKeepsRows(d.chars, rows, row);
      TombstoneKeepsRows(d.chars, who, Joined(rows, row));
    }
  }

  lemma JoinedRows(rows: Projection, row: nat)
    requires 0 < row < |rows| && rows[row] != []
    ensures var rows' := rows[row - 1 := rows[row - 1] + rows[row][1..]];
      rows'[..row] + rows'[row + 1..] == Joined(rows, row)
  {}

  lemma JoinedIsErased(d: Doc, rows: Projection, row: nat, who: Ident)
    requires Represents(rows, d) && 0 < row && At(rows, (row, 0), who)
    ensures Flat(Joined(rows, row)) == Erase(d.flat, who)
  {
    JoinedFlat(rows, row);
    AtSpot(rows, (row, 0), who);
    EraseSplits(d.flat, Offset(rows, row));
  }

  function Joined(rows: Projection, row: nat): Projection
    requires 0 < row < |rows| && rows[row] != []
  {
    rows[..row - 1] + [rows[row - 1] + rows[row][1..]] + rows[row + 1..]
  }

  lemma JoinedKeepsRows(chars: Chars, rows: Projection, row: nat)
    requires 0 < row < |rows| && RowsOk(chars, rows)
    ensures RowsOk(chars, Joined(rows, row))
  {
    var joined := Joined(rows, row);
    forall q | 0 <= q < |joined| ensures joined[q] != [] && joined[q][0] == rows[if q < row then q else q + 1][0] &&
        forall c :: 1 <= c < |joined[q]| ==> !Breaks(chars, joined[q][c]) {
      if q >= row { assert joined[q] == rows[q + 1]; }
    }
  }

  lemma JoinedFlat(rows: Projection, row: nat)
    requires 0 < row < |rows| && rows[row] != []
    ensures Offset(rows, row) < |Flat(rows)|
    ensures Flat(Joined(rows, row)) ==
      Flat(rows)[..Offset(rows, row)] + Flat(rows)[Offset(rows, row) + 1..]
  {
    var front, rest := Flat(rows[..row]), Flat(rows[row + 1..]);
    FlatAround(rows, row);
    JoinedParts(rows, row);
    DropHead(front, rows[row], rest);
  }

  lemma DropHead<T>(front: seq<T>, row: seq<T>, rest: seq<T>)
    requires row != []
    ensures (front + row + rest)[..|front|] + (front + row + rest)[|front| + 1..] == front + row[1..] + rest
  {
    assert (front + row + rest)[|front| + 1..] == row[1..] + rest;
  }

  lemma JoinedParts(rows: Projection, row: nat)
    requires 0 < row < |rows| && rows[row] != []
    ensures Flat(Joined(rows, row)) == Flat(rows[..row]) + rows[row][1..] + Flat(rows[row + 1..])
  {
    UpperFlat(rows, row);
    FlatConcat(rows[..row - 1] + [rows[row - 1] + rows[row][1..]], rows[row + 1..]);
  }

  lemma UpperFlat(rows: Projection, row: nat)
    requires 0 < row < |rows| && rows[row] != []
    ensures Flat(rows[..row - 1] + [rows[row - 1] + rows[row][1..]]) == Flat(rows[..row]) + rows[row][1..]
  {
    FlatConcat(rows[..row - 1], [rows[row - 1] + rows[row][1..]]);
    FlatOne(rows[row - 1] + rows[row][1..]);
    assert rows[..row] == rows[..row - 1] + [rows[row - 1]];
    FlatConcat(rows[..row - 1], [rows[row - 1]]);
    FlatOne(rows[row - 1]);
  }

  // ----- Readers -----

  function Predecessor(rows: Projection, pos: Position): Option<Ident> {
    var (row, col) := pos;
    if col > 0 then
      if row < |rows| && col - 1 < |rows[row]| then Some(rows[row][col - 1]) else None
    else if row > 0 && row - 1 < |rows| && rows[row - 1] != [] then Some(rows[row - 1][|rows[row - 1]| - 1]) else None
  }

  /** The predecessor that an editor is told is the element just before in the flat list. */
  lemma PredecessorInList(chars: Chars, rows: Projection, pos: Position)
    requires RowsOk(chars, rows) && InRows(rows, pos)
    ensures var i := Spot(rows, pos);
      i < |Flat(rows)| && Predecessor(rows, pos) == if i == 0 then None else Some(Flat(rows)[i - 1])
  {
    var i := Spot(rows, pos);
    PointsAt(rows, pos.0, pos.1, i);
    if pos.1 > 0 {
      PointsAt(rows, pos.0, pos.1 - 1, i - 1);
    } else if pos.0 > 0 {
      LastOfRow(chars, rows, pos.0 - 1, i);
    }
  }

  lemma LastOfRow(chars: Chars, rows: Projection, row: nat, i: nat)
    requires RowsOk(chars, rows) && row + 1 < |rows| && i == Offset(rows, row + 1)
    ensures 0 < i <= |Flat(rows)| && Flat(rows)[i - 1] == rows[row][|rows[row]| - 1]
  {
    OffsetNext(rows, row);
    PointsAt(rows, row, |rows[row]| - 1, i - 1);
  }

  /** A row with each identity's character alongside. */
  function RowWithValues(chars: Chars, row: seq<Ident>): (r: seq<(Ident, char)>)
    requires forall x :: x in row ==> x in chars
    ensures |r| == |row| && forall c :: 0 <= c < |row| ==> r[c] == (row[c], chars[row[c]].value)
  {
    seq(|row|, c requires 0 <= c < |row| => (row[c], chars[row[c]].value))
  }

  /** The projection with each identity's character alongside. */
  function WithValues(chars: Chars, rows: Projection): (r: seq<seq<(Ident, char)>>)
    requires forall q :: 0 <= q < |rows| ==> RowRecorded(chars, rows, q)
    ensures |r| == |rows|
    ensures forall q :: 0 <= q < |rows| ==> RowRecorded(chars, rows, q) && r[q] == RowWithValues(chars, rows[q])
  {
    seq(|rows|, q requires 0 <= q < |rows| => assert RowRecorded(chars, rows, q); RowWithValues(chars, rows[q]))
  }

  // ----- Loading -----

  /** The identity of the `k`-th loaded character, the sentinel being number 0. */
  function Link(counter: nat, k: nat): Ident
    requires counter + k <= MAX_U32
  {
    if k == 0 then ROOT else Ident(counter + k, 0)
  }

  /** A text as a chain of characters with consecutive ids. */
  function Chain(text: string, counter: nat): Doc
    requires counter + |text| <= MAX_U32
  {
    if text == [] then Doc(map[ROOT := ROOT_RELATION], [ROOT]) else
      var n := |text|;
      var d, who := Chain(text[..n - 1], counter), Link(counter, n);
      Doc(d.chars[who := Relation(text[n - 1], Link(counter, n - 1), false)], d.flat + [who])
  }

  /** What a loaded file of `n` characters looks like. */
  ghost predicate Loaded(d: Doc, counter: nat, n: nat)
    requires counter + n <= MAX_U32
  {
    WellFormed(d) && |d.flat| == n + 1 && (forall k :: 0 <= k <= n ==> d.flat[k] == Link(counter, k)) &&
    forall x :: x in d.chars ==> x in d.flat
  }

  lemma {:induction false} ChainIsLoaded(text: string, counter: nat)
    requires counter + |text| <= MAX_U32
    ensures Loaded(Chain(text, counter), counter, |text|)
    decreases |text|, 1
  {
    if text == [] {
      assert IsRank(map[ROOT := ROOT_RELATION], map[ROOT := 0]);
    } else {
      ChainGrows(text, counter, |text| - 1);
      assert text[..|text|] == text;
    }
  }

  function Typed(text: string, counter: nat, i: nat): Crdt
    requires i < |text| && counter + |text| <= MAX_U32
  {
    Crdt(Link(counter, i + 1), Relation(text[i], Link(counter, i), false))
  }

  /** Appending to the chain is an ordinary insert. */
  lemma {:induction false} ChainGrows(text: string, counter: nat, i: nat)
    requires i < |text| && counter + |text| <= MAX_U32
    ensures var d, crdt := Chain(text[..i], counter), Typed(text, counter, i);
      WellFormed(d) && Lands(d.chars, crdt) && Anchored(d.chars, crdt) &&
        Inserted(d, crdt) == Chain(text[..i + 1], counter)
    ensures Loaded(Chain(text[..i + 1], counter), counter, i + 1)
    decreases i, 2
  {
    ChainIsLoaded(text[..i], counter);
    assert text[..i + 1][..i] == text[..i];
    Appends(Chain(text[..i], counter), Typed(text, counter, i), counter, i);
  }

  lemma Appends(d: Doc, crdt: Crdt, counter: nat, n: nat)
    requires counter + n + 1 <= MAX_U32 && Loaded(d, counter, n)
    requires crdt.who == Link(counter, n + 1) && crdt.relation.parent == Link(counter, n) && !crdt.relation.deleted
    ensures Lands(d.chars, crdt) && Anchored(d.chars, crdt)
    ensures Inserted(d, crdt) == Doc(d.chars[crdt.who := crdt.relation], d.flat + [crdt.who])
    ensures Loaded(Inserted(d, crdt), counter, n + 1)
  {
    NextLink(d, counter, n);
    AppendsAtEnd(d, crdt, n);
    AnchoredAddKeepsWellFormed(d, crdt);
    AppendIsInsert(d.flat, crdt.who);
  }

  lemma NextLink(d: Doc, counter: nat, n: nat)
    requires counter + n + 1 <= MAX_U32 && Loaded(d, counter, n)
    ensures d.flat[n] == Link(counter, n) && Link(counter, n) in d.flat && Link(counter, n + 1) !in d.flat
    ensures Link(counter, n + 1) !in d.chars
  {
    var f, x := d.flat, Link(counter, n + 1);
    assert f[n] in f;
    forall k | 0 <= k < |f| ensures f[k] != x {}
  }

  lemma AppendsAtEnd(d: Doc, crdt: Crdt, n: nat)
    requires WellFormed(d) && |d.flat| == n + 1 && d.flat[n] == crdt.relation.parent && d.flat[n] in d.flat
    ensures crdt.relation.parent in d.chars && !d.chars[crdt.relation.parent].deleted && Slot(d, crdt) == |d.flat|
  {
    IndexUnique(d.flat, n);
  }

  lemma AppendIsInsert(f: seq<Ident>, x: Ident)
    ensures InsertAt(f, |f|, x) == f + [x]
  {}

  lemma {:induction false} ChainValues(text: string, counter: nat)
    requires counter + |text| <= MAX_U32
    ensures forall k :: 1 <= k <= |text| ==>
      Link(counter, k) in Chain(text, counter).chars &&
      Chain(text, counter).chars[Link(counter, k)] == Relation(text[k - 1], Link(counter, k - 1), false)
  {
    if text != [] {
      ChainValues(text[..|text| - 1], counter);
    }
  }

  /** Loading gives consecutive ids, each character under the one before it, and reading the list
      after the sentinel gives the text back. */
  lemma ChainReadsBack(text: string, counter: nat, i: nat)
    requires counter + |text| <= MAX_U32 && 0 < i <= |text|
    ensures var d := Chain(text, counter);
      |d.flat| == |text| + 1 && d.flat[i] == Ident(counter + i, 0) && d.flat[i] in d.chars &&
      d.chars[d.flat[i]] == Relation(text[i - 1], d.flat[i - 1], false)
  {
    ChainIsLoaded(text, counter);
    ChainValues(text, counter);
    assert Link(counter, i) == Chain(text, counter).flat[i] && Link(counter, i - 1) == Chain(text, counter).flat[i - 1];
  }

  /** The tie-break scan of one row for a child `me` of `par`. It always finds a place. */
  method ScanRow(chars: Chars, row: seq<Ident>, start: nat, offset: nat, par: Ident, me: Ident, ghost from: nat)
    returns (place: Option<nat>)
    requires offset <= 1 && start + offset == from <= |row| && forall x :: x in row ==> x in chars
    ensures place.Some? && place.value == RowScan(chars, row, from, par, me)
  {
    var j := start;
    while j < |row| + 1 - offset
      invariant start <= j && j + offset <= |row|
      invariant RowScan(chars, row, j + offset, par, me) == RowScan(chars, row, from, par, me)
    {
      if j + offset < |row| {
        var next := row[j + offset];
        if Halts(chars[next], next, par, me) {
          return Some(j + offset);
        }
      } else {
        return Some(j + offset);
      }
      j := j + 1;
    }
    assert false;
    return None;
  }

  class SharFile {
    var characters: Chars
    var projection: Projection

    constructor ()
      ensures characters == map[] && projection == []
    {
      characters, projection := map[], [];
    }

    /** The document with its rows laid end to end. */
    ghost function View(): Doc
      reads this
    {
      Doc(characters, Flat(projection))
    }

    ghost predicate Valid()
      reads this
    {
      Represents(projection, View())
    }

    /** Searches outward from the hinted row, row by row, upwards first. */
    method FindCrdt(lineHint: nat, who: Ident) returns (r: Result<Position>)
      requires projection != []
      ensures Finds(projection, lineHint, who, r)
    {
      if who == ROOT {
        return Ok((0, 0));
      }
      var lineNum := if lineHint < |projection| then lineHint else 0;
      var here := PositionIn(projection[lineNum], who);
      if here.Some? {
        return Ok((lineNum, here.value));
      }
      var upOffset, downOffset := 1, 1;
      var upExhausted, downExhausted := false, false;
      while !upExhausted || !downExhausted
        invariant 1 <= upOffset <= lineNum + 1 && 1 <= downOffset <= |projection| - lineNum
        invariant if upExhausted then upOffset == lineNum + 1 else upOffset >= downOffset
        invariant if downExhausted then lineNum + downOffset == |projection| else downOffset >= upOffset
        invariant forall q :: lineNum - upOffset < q < lineNum + downOffset ==> who !in projection[q]
        decreases lineNum + 1 - upOffset + (|projection| - lineNum - downOffset) +
          (if upExhausted then 0 else 1) + (if downExhausted then 0 else 1)
      {
        if lineNum < upOffset {
          upExhausted := true;
        } else {
          var up := PositionIn(projection[lineNum - upOffset], who);
          if up.Some? {
            return Ok((lineNum - upOffset, up.value));
          }
          upOffset := upOffset + 1;
        }
        if lineNum + downOffset >= |projection| {
          downExhausted := true;
        } else {
          var down := PositionIn(projection[lineNum + downOffset], who);
          if down.Some? {
            return Ok((lineNum + downOffset, down.value));
          }
          downOffset := downOffset + 1;
        }
      }
      return Err(OutOfBounds);
    }

    /** The climb from a tombstone to the place where its children start. */
    method FindTombstone(lineHint: nat, who: Ident) returns (r: Result<Position>)
      requires Valid() && who in characters && characters[who].deleted
      ensures r.Ok? && Points(projection, r.value.0, r.value.1, Start(View(), who)) && Inside(r.value.0, r.value.1)
      decreases Ranks(characters)[who], 1
    {
      var par := characters[who].parent;
      if par !in characters {
        return Err(Generic);
      }
      ghost var d, rows := View(), projection;
      var base := FindBase(lineHint, who, par);
      if base.Err? {
        return Err(Generic);
      }
      var (coordinates, offset) := base.value;
      RowIsRecorded(characters, projection, coordinates.0);
      r := Ok((0, 0));
      ghost var from := coordinates.1 + offset;
      var place := ScanRow(characters, projection[coordinates.0], coordinates.1, offset, par, who, from);
      if place.Some? {
        ClimbPlace(d, rows, coordinates.0, from, who, par, place.value);
        r := Ok((coordinates.0, place.value));
      }
    }

    /** Where the siblings of the tombstone `who` start: climb on if its parent is a tombstone too. */
    method FindBase(lineHint: nat, who: Ident, par: Ident) returns (base: Result<(Position, nat)>)
      requires Valid() && who in characters && characters[who].deleted && par == characters[who].parent
      ensures base.Ok? && base.value.1 <= 1
      ensures var (coordinates, offset) := base.value;
        Points(projection, coordinates.0, coordinates.1 + offset, ClimbBase(View(), who)) &&
          Inside(coordinates.0, coordinates.1 + offset)
      decreases Ranks(characters)[who], 0
    {
      if characters[par].deleted {
        var r := FindTombstone(lineHint, par);
        if r.Err? {
          return Err(Generic);
        }
        return Ok((r.value, 0));
      }
      if par == ROOT {
        return Ok(((0, 0), 0));
      }
      var r := FindCrdt(lineHint, par);
      HintFree(characters, projection, lineHint, par, r, lineHint, r);
      if r.Err? {
        return Err(Generic);
      }
      AtSpot(projection, r.value, par);
      return Ok((r.value, 1));
    }

    /** Splits a row in two: behind `coordinates` for a live parent, at `coordinates` otherwise. */
    method AddLineToProjection(coordinates: Position, who: Ident, parentReal: bool)
      requires coordinates.0 < |projection|
      requires projection[coordinates.0] != [] ==>
        coordinates.1 + (if parentReal then 1 else 0) <= |projection[coordinates.0]|
      modifies this`projection
      ensures old(projection)[coordinates.0] != [] ==>
        projection == if parentReal then HeadFirst(old(projection), coordinates.0, coordinates.1 + 1, who)
                      else TailFirst(old(projection), coordinates.0, coordinates.1, who)
      ensures old(projection)[coordinates.0] == [] ==>
        projection == if parentReal
                      then old(projection)[..coordinates.0] + [[], [who]] + old(projection)[coordinates.0 + 1..]
                      else old(projection)[..coordinates.0] + [[who], []] + old(projection)[coordinates.0 + 1..]
    {
      var offset := if parentReal then 1 else 0;
      if projection[coordinates.0] == [] {
        projection := projection[..coordinates.0 + offset] + [[who]] + projection[coordinates.0 + offset..];
        return;
      }
      var row := projection[coordinates.0];
      var newLine := [who] + row[coordinates.1 + offset..];
      projection := projection[coordinates.0 := row[..coordinates.1 + offset]];
      projection := projection[..coordinates.0 + offset] + [newLine] + projection[coordinates.0 + offset..];
    }

    /** Where the parent of an insert is, or where its children start if it is a tombstone. */
    method FindParent(lineHint: nat, par: Ident) returns (found: Result<Position>)
      requires Valid() && par in characters
      ensures found.Ok? && Anchor(View(), projection, par, found.value)
    {
      if !characters[par].deleted {
        found := FindCrdt(lineHint, par);
        HintFree(characters, projection, lineHint, par, found, lineHint, found);
        AtSpot(projection, found.value, par);
      } else {
        found := FindTombstone(lineHint, par);
      }
    }

    method PlaceLineBreak(coordinates: Position, crdt: Crdt, parentExists: bool, ghost d: Doc) returns (pos: Position)
      requires Represents(projection, d) && Lands(d.chars, crdt) && IsLineBreak(crdt.relation.value)
      requires Anchor(d, projection, crdt.relation.parent, coordinates)
      requires parentExists == !d.chars[crdt.relation.parent].deleted
      modifies this`projection
      ensures Landed(d, crdt, old(projection), projection, pos)
    {
      ghost var rows := projection;
      AnchorFits(d, rows, crdt.relation.parent, coordinates);
      var r, c := coordinates.0, coordinates.1;
      AddLineToProjection(coordinates, crdt.who, parentExists);
      pos := (r + 1, 0);
      LineBreakLands(d, rows, r, c, crdt, projection);
    }

    method PlaceCharacter(coordinates: Position, crdt: Crdt, parentExists: bool,
                          ghost d: Doc) returns (pos: Option<Position>)
      requires Represents(projection, d) && Lands(d.chars, crdt) && !IsLineBreak(crdt.relation.value)
      requires characters == Inserted(d, crdt).chars
      requires Anchor(d, projection, crdt.relation.parent, coordinates)
      requires parentExists == !d.chars[crdt.relation.parent].deleted
      modifies this`projection
      ensures pos.Some? && Landed(d, crdt, old(projection), projection, pos.value)
    {
      var offset := if parentExists then 1 else 0;
      ghost var from := coordinates.1 + offset;
      CharacterPlace(d, projection, coordinates.0, from, crdt);
      var place := ScanRow(characters, projection[coordinates.0], coordinates.1, offset, crdt.relation.parent,
        crdt.who, from);
      pos := None;
      if place.Some? {
        CharacterLands(d, projection, coordinates.0, place.value, crdt);
        projection := projection[coordinates.0 := InsertAt(projection[coordinates.0], place.value, crdt.who)];
        pos := Some((coordinates.0, place.value));
      }
    }

    /** Inserts one character. `Ok(None)`: applied before. `Err`: the parent has not arrived.
        The parent is always found and the tie-break always ends, so neither shows up otherwise. */
    method AddCrdt(lineHint: nat, crdt: Crdt) returns (r: Result<Option<Position>>)
      requires Valid()
      modifies this
      ensures crdt.relation.parent !in old(characters) ==> r == Err(Generic)
      ensures crdt.relation.parent in old(characters) && crdt.who in old(characters) ==> r == Ok(None)
      ensures !Lands(old(characters), crdt) ==> characters == old(characters) && projection == old(projection)
      ensures Lands(old(characters), crdt) ==> r.Ok? && r.value.Some? && View() == Inserted(old(View()), crdt)
      ensures Valid() <==> (Lands(old(characters), crdt) ==> Anchored(old(characters), crdt))
      ensures Lands(old(characters), crdt) ==>
        Landed(old(View()), crdt, old(projection), projection, r.value.value)
    {
      var par := crdt.relation.parent;
      if par !in characters {
        return Err(Generic);
      }
      var parentExists := !characters[par].deleted;
      if crdt.who in characters {
        return Ok(None);
      }
      var found := FindParent(lineHint, par);
      if found.Err? {
        return Err(OutOfBounds);
      }
      ghost var d, rows := View(), projection;
      characters := characters[crdt.who := crdt.relation];
      if IsLineBreak(crdt.relation.value) {
        var pos := PlaceLineBreak(found.value, crdt, parentExists, d);
        LandedShape(d, crdt, rows, projection, pos);
        return Ok(Some(pos));
      }
      var pos := PlaceCharacter(found.value, crdt, parentExists, d);
      LandedShape(d, crdt, rows, projection, pos.value);
      return Ok(pos);
    }

    /** Tombstones one character and drops it from the projection. `Ok(None)`: removed before. */
    method RemoveCrdt(lineHint: nat, who: Ident) returns (r: Result<Option<Position>>)
      requires Valid()
      modifies this
      ensures who != ROOT ==> View() == Remove(old(View()), who)
      ensures who == ROOT ==> View() == Doc(Tombstoned(old(characters), ROOT), old(View()).flat[1..])
      ensures Valid() <==> who != ROOT
      ensures who !in old(characters) ==> r == Err(Generic)
      ensures who in old(characters) && old(characters)[who].deleted ==> r == Ok(None)
      ensures !Live(old(characters), who) ==> projection == old(projection)
      ensures Live(old(characters), who) ==> r.Ok? && r.value.Some? && At(old(projection), r.value.value, who)
    {
      if who !in characters {
        return Err(Generic);
      }
      if characters[who].deleted {
        return Ok(None);
      }
      var isLine := IsLineBreak(characters[who].value);
      ghost var d, rows := View(), projection;
      var position := FindCrdt(lineHint, who);
      HintFree(characters, projection, lineHint, who, position, lineHint, position);
      if position.Err? {
        return Err(Generic);
      }
      characters := characters[who := characters[who].(deleted := true)];
      var row, col := position.value.0, position.value.1;
      if isLine {
        BreakLeaves(d, rows, row, col, who);
        var rest := projection[row][1..];
        projection := projection[row - 1 := projection[row - 1] + rest];
        projection := projection[..row] + projection[row + 1..];
        LeftBehind(d, who, projection);
        return Ok(Some((row, 0)));
      }
      if who == ROOT { SentinelLeaves(d, rows); } else { CharacterLeaves(d, rows, row, col, who); }
      projection := projection[row := projection[row][..col] + projection[row][col + 1..]];
      LeftBehind(d, who, projection);
      return Ok(Some((row, col)));
    }

    /** The identity listed just before `position`. */
    function PredecessorIdentity(position: Position): Option<Ident>
      reads this
    {
      Predecessor(projection, position)
    }

    /** What a freshly joined editor builds its document from. */
    function IdentitiesWithValues(): seq<seq<(Ident, char)>>
      requires forall q :: 0 <= q < |projection| ==> RowRecorded(characters, projection, q)
      reads this
    {
      WithValues(characters, projection)
    }

    /** Seeds the sentinel and inserts the text, each character under the one before it. */
    method AddFile(text: string, counter: u32) returns (counter': u32)
      requires characters == map[] && projection == [] && counter + |text| <= MAX_U32
      modifies this
      ensures Valid() && counter' == counter + |text|
      ensures View() == Chain(text, counter)
    {
      projection := [[]];
      projection := projection[0 := projection[0] + [ROOT]];
      characters := characters[ROOT := ROOT_RELATION];
      ChainIsLoaded([], counter);
      counter' := counter;
      var line, prev, i := 0, ROOT, 0;
      while i < |text|
        invariant 0 <= i <= |text| && counter' == counter + i
        invariant Valid() && View() == Chain(text[..i], counter) && prev == Link(counter, i)
      {
        var c := text[i];
        counter' := counter' + 1;
        var who := Ident(counter', 0);
        var crdt := Crdt(who, Relation(c, prev, false));
        assert crdt == Typed(text, counter, i);
        ChainGrows(text, counter, i);
        prev := who;
        var _ := AddCrdt(line, crdt);
        if IsLineBreak(c) {
          line := line + 1;
        }
        i := i + 1;
      }
      assert text[..|text|] == text;
    }
  }
}
