/** One document, with the rows of its projection laid end to end: what inserting and removing
    a character does to the list of live identities. */
module Document {
  import opened Types
  import opened CharTree
  import opened Lists

  datatype Doc = Doc(chars: Chars, flat: seq<Ident>)

  /** Enough structure to compute an insert position; every operation keeps it. */
  ghost predicate Sound(d: Doc) {
    Rooted(d.chars) && forall x :: Live(d.chars, x) ==> x in d.flat
  }

  /** The list starts with the sentinel, holds each live identity once and nothing else, and
      never shows a character before a live ancestor. */
  ghost predicate WellFormed(d: Doc) {
    && Rooted(d.chars)
    && d.flat != [] && d.flat[0] == ROOT
    && Distinct(d.flat)
    && (forall x :: x in d.flat <==> Live(d.chars, x))
    && AncestorsLead(d)
  }

  ghost predicate AncestorsLead(d: Doc)
    requires Rooted(d.chars)
  {
    Pairwise(d.flat, NotBelow(d.chars))
  }

  /** `a` may be shown before `b`: it is not a descendant of `b`. */
  ghost function NotBelow(chars: Chars): (Ident, Ident) -> bool
    requires Rooted(chars)
  {
    (a, b) => a in chars && b in chars ==> !Above(chars, b, a)
  }

  // ----- Where a character goes -----

  /** An insert of `me` under `par` walks past `y`. */
  predicate Skips(chars: Chars, y: Ident, par: Ident, me: Ident) {
    y in chars && !Breaks(chars, y) && chars[y].parent == par && Outranks(y, me)
  }

  function Scan(d: Doc, i: nat, par: Ident, me: Ident): (r: nat)
    requires i <= |d.flat|
    ensures i <= r <= |d.flat|
    ensures forall k :: i <= k < r ==> Skips(d.chars, d.flat[k], par, me)
    ensures r < |d.flat| ==> !Skips(d.chars, d.flat[r], par, me)
    decreases |d.flat| - i
  {
    if i < |d.flat| && Skips(d.chars, d.flat[i], par, me) then Scan(d, i + 1, par, me) else i
  }

  /** Where the children of `c` start. A tombstone has no place of its own: climb to its parent
      and apply the tie-break from there. A climb that meets the sentinel scans from the
      sentinel itself rather than from behind it. */
  ghost function Start(d: Doc, c: Ident): (r: nat)
    requires Sound(d) && c in d.chars
    ensures r <= |d.flat|
    decreases Ranks(d.chars)[c]
  {
    if !d.chars[c].deleted then IndexOf(d.flat, c) + 1 else Scan(d, ClimbBase(d, c), d.chars[c].parent, c)
  }

  ghost function ClimbBase(d: Doc, c: Ident): (r: nat)
    requires Sound(d) && c in d.chars && d.chars[c].deleted
    ensures r <= |d.flat|
    decreases Ranks(d.chars)[c], 0
  {
    if d.chars[c].parent == ROOT then 0 else Start(d, d.chars[c].parent)
  }

  /** The climb from the tombstone `c` ends in front of the sentinel. */
  ghost predicate ReachesRoot(chars: Chars, c: Ident)
    requires Rooted(chars) && c in chars
    decreases Ranks(chars)[c]
  {
    chars[c].deleted &&
    if chars[c].parent == ROOT then !Outranks(ROOT, c) else ReachesRoot(chars, chars[c].parent)
  }

  /** The nearest live node at or above `c`. */
  ghost function Home(chars: Chars, c: Ident): (h: Ident)
    requires Rooted(chars) && c in chars
    ensures Live(chars, h)
    decreases Ranks(chars)[c]
  {
    if !chars[c].deleted then c else Home(chars, chars[c].parent)
  }

  /** A line break skips the tie-break. */
  ghost function Slot(d: Doc, crdt: Crdt): (r: nat)
    requires Sound(d) && crdt.relation.parent in d.chars
    ensures r <= |d.flat|
  {
    var p := crdt.relation.parent;
    if IsLineBreak(crdt.relation.value) then Start(d, p) else Scan(d, Start(d, p), p, crdt.who)
  }

  /** The start of the row that ends or continues at `pos`. */
  function RowStart(d: Doc, pos: nat): (r: nat)
    requires pos <= |d.flat|
    ensures r <= pos
  {
    if pos <= 1 then 0 else if Breaks(d.chars, d.flat[pos - 1]) then pos - 1 else RowStart(d, pos - 1)
  }

  function RowEnd(d: Doc, pos: nat): (r: nat)
    requires pos <= |d.flat|
    ensures pos <= r <= |d.flat|
    decreases |d.flat| - pos
  {
    if pos < |d.flat| && !Breaks(d.chars, d.flat[pos]) then RowEnd(d, pos + 1) else pos
  }

  /** A line break under a tombstone puts the tail of the split row before its head. */
  function Displaced(d: Doc, pos: nat, x: Ident): (r: seq<Ident>)
    requires pos <= |d.flat|
    ensures forall y :: y in r <==> y in d.flat || y == x
  {
    var rs, re := RowStart(d, pos), RowEnd(d, pos);
    var front, head, tail, rest := d.flat[..rs], d.flat[rs..pos], d.flat[pos..re], d.flat[re..];
    SameElements(front, head, tail, rest, x);
    assert d.flat == front + head + tail + rest;
    front + [x] + tail + head + rest
  }

  lemma SameElements(a: seq<Ident>, b: seq<Ident>, c: seq<Ident>, e: seq<Ident>, x: Ident)
    ensures forall y :: y in a + [x] + c + b + e <==> y in a + b + c + e || y == x
  {}

  ghost function Inserted(d: Doc, crdt: Crdt): Doc
    requires Sound(d) && crdt.relation.parent in d.chars
  {
    var pos := Slot(d, crdt);
    Doc(d.chars[crdt.who := crdt.relation],
        if IsLineBreak(crdt.relation.value) && d.chars[crdt.relation.parent].deleted
        then Displaced(d, pos, crdt.who) else InsertAt(d.flat, pos, crdt.who))
  }

  /** The add lands behind its nearest live ancestor and keeps the rows in order. */
  ghost predicate Anchored(chars: Chars, crdt: Crdt)
    requires Rooted(chars) && crdt.relation.parent in chars
  {
    !crdt.relation.deleted &&
    (chars[crdt.relation.parent].deleted ==>
       !IsLineBreak(crdt.relation.value) && !ReachesRoot(chars, crdt.relation.parent))
  }

  // ----- The two operations -----

  /** An add lands unless its parent is missing or it has landed before. */
  predicate Lands(chars: Chars, crdt: Crdt) {
    crdt.relation.parent in chars && crdt.who !in chars
  }

  ghost function Add(d: Doc, crdt: Crdt): Doc
    requires Sound(d)
  {
    if Lands(d.chars, crdt) then Inserted(d, crdt) else d
  }

  /** A remove works once, on a recorded identity; the sentinel stays. */
  function Remove(d: Doc, x: Ident): Doc {
    if x != ROOT && Live(d.chars, x) then Doc(Tombstoned(d.chars, x), Erase(d.flat, x)) else d
  }

  lemma AddKeepsSound(d: Doc, crdt: Crdt)
    requires Sound(d)
    ensures Sound(Add(d, crdt))
  {
    if Lands(d.chars, crdt) {
      RootedAfterAdd(d.chars, crdt.who, crdt.relation);
    }
  }

  lemma RemoveKeepsSound(d: Doc, x: Ident)
    requires Sound(d)
    ensures Sound(Remove(d, x))
  {
    if x != ROOT && Live(d.chars, x) { RootedAfterTombstone(d.chars, x); }
  }

  // ----- Climbing -----

  lemma {:induction false} PathNodes(chars: Chars, x: Ident, n: Ident)
    requires Rooted(chars) && x in chars && n in Path(chars, x)
    ensures n in chars
    decreases Ranks(chars)[x]
  {
    if x != ROOT && n != x { PathNodes(chars, chars[x].parent, n); }
  }

  lemma {:induction false} HomeIsNearest(chars: Chars, c: Ident)
    requires Rooted(chars) && c in chars
    ensures Path(chars, Home(chars, c)) <= Path(chars, c)
    ensures forall b :: Live(chars, b) && Path(chars, b) <= Path(chars, c) ==>
      Path(chars, b) <= Path(chars, Home(chars, c))
    decreases Ranks(chars)[c]
  {
    if chars[c].deleted {
      var p := chars[c].parent;
      HomeIsNearest(chars, p);
      forall b | Live(chars, b) && Path(chars, b) <= Path(chars, c) ensures Path(chars, b) <= Path(chars, p) {
        AboveIsPathOfParent(chars, b, c);
      }
    }
  }

  /** A climb either falls through to the very front or ends in the row of the nearest live
      ancestor, behind it. */
  lemma {:induction false} StartFollowsHome(d: Doc, c: Ident)
    requires WellFormed(d) && c in d.chars
    ensures ReachesRoot(d.chars, c) ==> Start(d, c) == 0
    ensures !ReachesRoot(d.chars, c) ==> IndexOf(d.flat, Home(d.chars, c)) < Start(d, c)
    ensures forall i :: IndexOf(d.flat, Home(d.chars, c)) < i < Start(d, c) ==> !Breaks(d.chars, d.flat[i])
    decreases Ranks(d.chars)[c]
  {
    if d.chars[c].deleted {
      var p := d.chars[c].parent;
      if p == ROOT {
        assert IndexOf(d.flat, ROOT) == 0;
      } else {
        StartFollowsHome(d, p);
      }
    }
  }

  /** What is listed in `d` has the same relations in `d'`. */
  ghost predicate Agrees(d: Doc, d': Doc) {
    forall y :: y in d.flat ==> y in d.chars && y in d'.chars && d'.chars[y] == d.chars[y]
  }

  lemma {:induction false} ScanSame(d: Doc, d': Doc, i: nat, par: Ident, me: Ident)
    requires Agrees(d, d') && d'.flat == d.flat && i <= |d.flat|
    ensures Scan(d', i, par, me) == Scan(d, i, par, me)
    decreases |d.flat| - i
  {
    if i < |d.flat| {
      assert d.flat[i] in d.flat;
      ScanSame(d, d', i + 1, par, me);
    }
  }
}
