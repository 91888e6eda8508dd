/** Which inserts commute on any well-formed document, faithful or not: siblings, a line break and a
    sibling, newcomers under different live parents; and removes among themselves. */
module Commute {
  import opened Types
  import opened CharTree
  import opened Lists
  import opened Document
  import opened Shape

  // ----- A scan on a list that has gained an element -----

  lemma {:induction false} ScanBehind(d: Doc, d': Doc, s: nat, x: Ident, t: nat, p: Ident, me: Ident)
    requires s <= t <= |d.flat| && d'.flat == InsertAt(d.flat, s, x)
    requires Agrees(d, d')
    ensures Scan(d', t + 1, p, me) == Scan(d, t, p, me) + 1
    decreases |d.flat| - t
  {
    InsertShifts(d.flat, s, x);
    if t < |d.flat| {
      assert d'.flat[t + 1] == d.flat[t] && d.flat[t] in d.flat;
      if Skips(d.chars, d.flat[t], p, me) { ScanBehind(d, d', s, x, t + 1, p, me); }
    }
  }

  lemma {:induction false} ScanAcross(d: Doc, d': Doc, s: nat, x: Ident, t: nat, p: Ident, me: Ident)
    requires t <= s <= |d.flat| && d'.flat == InsertAt(d.flat, s, x)
    requires Agrees(d, d')
    ensures var r := Scan(d, t, p, me);
      Scan(d', t, p, me) == if r < s then r else if Skips(d'.chars, x, p, me) then r + 1 else s
    decreases s - t
  {
    InsertShifts(d.flat, s, x);
    if t < s {
      assert d'.flat[t] == d.flat[t] && d.flat[t] in d.flat;
      if Skips(d.chars, d.flat[t], p, me) { ScanAcross(d, d', s, x, t + 1, p, me); }
    } else if Skips(d'.chars, x, p, me) {
      ScanBehind(d, d', s, x, t, p, me);
    }
  }

  lemma InsertTwice<T(!new)>(f: seq<T>, i: nat, j: nat, a: T, b: T)
    requires i <= j <= |f|
    ensures InsertAt(InsertAt(f, i, a), j + 1, b) == InsertAt(InsertAt(f, j, b), i, a)
  {
    var m := f[..i] + [a] + f[i..j] + [b] + f[j..];
    assert InsertAt(InsertAt(f, i, a), j + 1, b) == m;
    assert InsertAt(InsertAt(f, j, b), i, a) == m;
  }

  // ----- Siblings -----

  /** A child of `p` does not move the places where the children of `p`, or of a node above `p`, start. */
  lemma {:induction false} StartStays(d: Doc, crdt: Crdt, c: Ident)
    requires WellFormed(d) && Lands(d.chars, crdt) && Anchored(d.chars, crdt)
    requires c in d.chars && Path(d.chars, c) <= Path(d.chars, crdt.relation.parent)
    requires Start(d, c) <= Slot(d, crdt)
    ensures WellFormed(Inserted(d, crdt)) && Start(Inserted(d, crdt), c) == Start(d, c)
    decreases Ranks(d.chars)[c]
  {
    AnchoredAddKeepsWellFormed(d, crdt);
    if !d.chars[c].deleted {
      LiveStays(d, Inserted(d, crdt), crdt, Slot(d, crdt), c);
    } else {
      var q := d.chars[c].parent;
      AboveIsPathOfParent(d.chars, q, c);
      if q != ROOT { StartStays(d, crdt, q); }
      ClimbStays(d, Inserted(d, crdt), crdt, Slot(d, crdt), c, q);
    }
  }

  lemma LiveStays(d: Doc, d': Doc, crdt: Crdt, s: nat, c: Ident)
    requires Sound(d) && Sound(d') && s <= |d.flat| && d'.flat == InsertAt(d.flat, s, crdt.who)
    requires d'.chars == d.chars[crdt.who := crdt.relation]
    requires Distinct(d.flat) && crdt.who !in d.flat && crdt.who !in d.chars && Live(d.chars, c) && Start(d, c) <= s
    ensures Start(d', c) == Start(d, c)
  {
    IndexAfterInsert(d.flat, s, crdt.who, c);
  }

  lemma ClimbStays(d: Doc, d': Doc, crdt: Crdt, s: nat, c: Ident, q: Ident)
    requires Sound(d) && Sound(d') && s <= |d.flat| && d'.flat == InsertAt(d.flat, s, crdt.who)
    requires d'.chars == d.chars[crdt.who := crdt.relation]
    requires (forall y :: y in d.flat ==> y in d.chars) && crdt.who !in d.chars
    requires c in d.chars && d.chars[c].deleted && d.chars[c].parent == q && q in d.chars && q != crdt.relation.parent
    requires ClimbBase(d', c) == ClimbBase(d, c) && Start(d, c) <= s
    ensures Start(d', c) == Start(d, c)
  {
    ScanAcross(d, d', s, crdt.who, ClimbBase(d, c), q, c);
  }

  ghost predicate Sibling(d: Doc, p: Ident, crdt: Crdt)
    requires Rooted(d.chars)
  {
    crdt.relation.parent == p && Lands(d.chars, crdt) && Anchored(d.chars, crdt) && !IsLineBreak(crdt.relation.value)
  }

  lemma SiblingSlotAfter(d: Doc, p: Ident, a: Crdt, b: Crdt)
    requires WellFormed(d) && Sibling(d, p, a) && Sibling(d, p, b) && a.who != b.who
    ensures WellFormed(Inserted(d, a)) && Sibling(Inserted(d, a), p, b)
    ensures Slot(Inserted(d, a), b) == SecondSlot(d, a, b)
    ensures Inserted(d, a).flat == InsertAt(d.flat, Slot(d, a), a.who)
  {
    StartStays(d, a, p);
    AnchoredAddKeepsWellFormed(d, a);
    ReachesRootFrame(d.chars, Inserted(d, a).chars, p);
    SiblingScan(d, Inserted(d, a), p, a, b, Slot(d, a));
  }

  lemma SiblingScan(d: Doc, d': Doc, p: Ident, a: Crdt, b: Crdt, s: nat)
    requires Sound(d) && Sound(d') && s <= |d.flat| && d'.flat == InsertAt(d.flat, s, a.who)
    requires d'.chars == d.chars[a.who := a.relation]
    requires (forall y :: y in d.flat ==> y in d.chars) && a.who !in d.chars && a.who != b.who
    requires a.relation.parent == b.relation.parent == p && p in d.chars && p in d'.chars && s == Slot(d, a)
    requires Start(d', p) == Start(d, p)
    requires !IsLineBreak(a.relation.value) && !IsLineBreak(b.relation.value)
    ensures Slot(d', b) == SecondSlot(d, a, b)
  {
    ScanAcross(d, d', s, a.who, Start(d, p), p, b.who);
  }

  lemma {:induction false} ReachesRootFrame(chars: Chars, chars': Chars, c: Ident)
    requires Rooted(chars) && Rooted(chars') && c in chars
    requires forall x :: x in chars ==> x in chars' && chars'[x] == chars[x]
    ensures ReachesRoot(chars', c) <==> ReachesRoot(chars, c)
    decreases Ranks(chars)[c]
  {
    if chars[c].deleted && chars[c].parent != ROOT { ReachesRootFrame(chars, chars', chars[c].parent); }
  }

  lemma {:induction false} ElderScansLess(d: Doc, t: nat, p: Ident, a: Ident, b: Ident)
    requires t <= |d.flat| && Outranks(a, b)
    ensures Scan(d, t, p, a) <= Scan(d, t, p, b)
    decreases |d.flat| - t
  {
    if t < |d.flat| && Skips(d.chars, d.flat[t], p, a) { ElderScansLess(d, t + 1, p, a, b); }
  }

  /** Where the second of two siblings ends up. */
  ghost function SecondSlot(d: Doc, a: Crdt, b: Crdt): (r: nat)
    requires Sound(d) && a.relation.parent in d.chars && b.relation.parent in d.chars
    ensures r <= |d.flat| + 1
  {
    if Slot(d, b) < Slot(d, a) then Slot(d, b)
    else if Outranks(a.who, b.who) then Slot(d, b) + 1 else Slot(d, a)
  }

  ghost function BothInserted(d: Doc, a: Crdt, b: Crdt): Doc
    requires Sound(d) && a.relation.parent in d.chars && b.relation.parent in d.chars
  {
    Doc(d.chars[a.who := a.relation][b.who := b.relation],
        InsertAt(InsertAt(d.flat, Slot(d, a), a.who), SecondSlot(d, a, b), b.who))
  }

  lemma TwoInserts(d: Doc, p: Ident, a: Crdt, b: Crdt)
    requires WellFormed(d) && Sibling(d, p, a) && Sibling(d, p, b) && a.who != b.who
    ensures WellFormed(Inserted(d, a)) && Sibling(Inserted(d, a), p, b)
    ensures Inserted(Inserted(d, a), b) == BothInserted(d, a, b)
  {
    SiblingSlotAfter(d, p, a, b);
    AnchoredAddKeepsWellFormed(Inserted(d, a), b);
  }

  lemma SiblingFlats(d: Doc, p: Ident, e: Crdt, y: Crdt)
    requires Sound(d) && e.relation.parent == y.relation.parent == p && p in d.chars && Outranks(e.who, y.who)
    requires !IsLineBreak(e.relation.value) && !IsLineBreak(y.relation.value)
    ensures InsertAt(InsertAt(d.flat, Slot(d, e), e.who), SecondSlot(d, e, y), y.who)
         == InsertAt(InsertAt(d.flat, Slot(d, y), y.who), SecondSlot(d, y, e), e.who)
  {
    ElderScansLess(d, Start(d, p), p, e.who, y.who);
    InsertTwice(d.flat, Slot(d, e), Slot(d, y), e.who, y.who);
  }

  /** Two characters under one parent, live or tombstoned, end up in the same places in either order. */
  lemma SiblingsCommute(d: Doc, p: Ident, a: Crdt, b: Crdt)
    requires WellFormed(d) && Sibling(d, p, a) && Sibling(d, p, b) && a.who != b.who
    ensures WellFormed(Inserted(d, a)) && WellFormed(Inserted(d, b))
    ensures Inserted(Inserted(d, a), b) == Inserted(Inserted(d, b), a)
  {
    var ab, ba := BothInserted(d, a, b), BothInserted(d, b, a);
    assert ab == ba by {
      if Outranks(a.who, b.who) { SiblingFlats(d, p, a, b); } else { SiblingFlats(d, p, b, a); }
      UpdatesSwap(d.chars, a, b);
    }
    TwoInserts(d, p, a, b);
    TwoInserts(d, p, b, a);
  }

  /** Distinct newcomers, all under `p`. */
  ghost predicate Siblings(d: Doc, p: Ident, batch: seq<Crdt>)
    requires Rooted(d.chars)
  {
    Distinct(batch) && (forall a :: a in batch ==> Sibling(d, p, a)) &&
    forall a, b :: a in batch && b in batch && a.who == b.who ==> a == b
  }

  ghost function InsertAll(d: Doc, batch: seq<Crdt>): (d': Doc)
    requires Sound(d)
    ensures Sound(d')
    decreases |batch|
  {
    if batch == [] then d else AddKeepsSound(d, batch[0]); InsertAll(Add(d, batch[0]), batch[1..])
  }

  lemma SiblingsAfter(d: Doc, p: Ident, batch: seq<Crdt>, a: Crdt)
    requires WellFormed(d) && Siblings(d, p, batch) && a in batch
    ensures WellFormed(Inserted(d, a)) && Siblings(Inserted(d, a), p, Erase(batch, a))
  {
    AnchoredAddKeepsWellFormed(d, a);
    DistinctErase(batch, a);
    forall b | b in Erase(batch, a) ensures Sibling(Inserted(d, a), p, b) { SiblingSlotAfter(d, p, a, b); }
  }

  lemma {:induction false} BringToFront(d: Doc, p: Ident, batch: seq<Crdt>, a: Crdt)
    requires WellFormed(d) && Siblings(d, p, batch) && a in batch
    ensures WellFormed(Inserted(d, a)) && InsertAll(d, batch) == InsertAll(Inserted(d, a), Erase(batch, a))
    decreases |batch|
  {
    var b, rest := batch[0], batch[1..];
    assert b in batch && batch == [b] + rest;
    assert WellFormed(Inserted(d, a)) by { SiblingsAfter(d, p, batch, a); }
    FirstLands(d, b, rest);
    assert Erase(batch, b) == rest by { EraseSplits(batch, 0); }
    if b != a {
      var d1, rest' := Inserted(d, b), Erase(rest, a);
      assert Siblings(d1, p, rest) by { SiblingsAfter(d, p, batch, b); }
      assert a in rest;
      BringToFront(d1, p, rest, a);
      SiblingsCommute(d, p, a, b);
      assert Lands(Inserted(d, a).chars, b) && Anchored(Inserted(d, a).chars, b) by { SiblingSlotAfter(d, p, a, b); }
      calc {
        InsertAll(d1, rest);
        InsertAll(Inserted(d1, a), rest');
        InsertAll(Inserted(Inserted(d, a), b), rest');
        { FirstLands(Inserted(d, a), b, rest'); }
        InsertAll(Inserted(d, a), [b] + rest');
        { assert Erase(batch, a) == [b] + rest'; }
        InsertAll(Inserted(d, a), Erase(batch, a));
      }
    }
  }

  lemma FirstLands(d: Doc, b: Crdt, rest: seq<Crdt>)
    requires WellFormed(d) && Lands(d.chars, b) && Anchored(d.chars, b)
    ensures WellFormed(Inserted(d, b)) && InsertAll(d, [b] + rest) == InsertAll(Inserted(d, b), rest)
  {
    AnchoredAddKeepsWellFormed(d, b);
    assert ([b] + rest)[1..] == rest;
  }

  /** Any finite set of ordinary characters under one parent gives the same document in every
      delivery order. */
  lemma {:induction false} SiblingsAnyOrder(d: Doc, p: Ident, batch: seq<Crdt>, batch': seq<Crdt>)
    requires WellFormed(d) && Siblings(d, p, batch) && Siblings(d, p, batch')
    requires forall a :: a in batch <==> a in batch'
    ensures InsertAll(d, batch) == InsertAll(d, batch')
    decreases |batch|
  {
    assert batch' != [] ==> batch'[0] in batch';
    if batch != [] {
      var a := batch[0];
      assert a in batch;
      BringToFront(d, p, batch, a);
      BringToFront(d, p, batch', a);
      SiblingsAfter(d, p, batch, a);
      SiblingsAfter(d, p, batch', a);
      EraseSplits(batch, 0);
      SiblingsAnyOrder(Inserted(d, a), p, Erase(batch, a), Erase(batch', a));
    }
  }

  // ----- A line break and a sibling -----

  /** Two newcomers under the live node `p`, the first of them a line break. */
  ghost predicate BreakBeside(d: Doc, p: Ident, a: Crdt, b: Crdt) {
    && a.relation.parent == b.relation.parent == p && Live(d.chars, p) && a.who != b.who
    && Lands(d.chars, a) && Lands(d.chars, b) && !a.relation.deleted && !b.relation.deleted
    && IsLineBreak(a.relation.value)
  }

  /** What comes second goes right behind the parent. */
  lemma SecondBehindParent(d: Doc, p: Ident, a: Crdt, b: Crdt, i: nat)
    requires WellFormed(d) && (BreakBeside(d, p, a, b) || BreakBeside(d, p, b, a)) && i == IndexOf(d.flat, p)
    ensures WellFormed(Inserted(d, a)) && Lands(Inserted(d, a).chars, b)
    ensures var f := Inserted(Inserted(d, a), b).flat; i + 1 < |f| && f[i + 1] == b.who
  {
    var d' := Inserted(d, a);
    AnchoredAddKeepsWellFormed(d, a);
    IndexAfterInsert(d.flat, Slot(d, a), a.who, p);
    if !IsLineBreak(b.relation.value) { BreakStops(d, d', p, a, b, i); }
  }

  lemma BreakStops(d: Doc, d': Doc, p: Ident, a: Crdt, b: Crdt, i: nat)
    requires Sound(d') && a.who in d'.chars && d'.chars[a.who] == a.relation && IsLineBreak(a.relation.value)
    requires i + 1 < |d'.flat| && d'.flat[i + 1] == a.who && p in d'.chars && b.relation.parent == p
    requires Start(d', p) == i + 1
    ensures Slot(d', b) == i + 1
  {}

  /** A line break and anything else typed behind one character never commute: whichever comes second
      is listed in front. */
  lemma BreakNeverCommutes(d: Doc, p: Ident, a: Crdt, b: Crdt)
    requires WellFormed(d) && BreakBeside(d, p, a, b)
    ensures WellFormed(Inserted(d, a)) && WellFormed(Inserted(d, b))
    ensures p in Inserted(d, a).chars && p in Inserted(d, b).chars
    ensures Inserted(Inserted(d, a), b) != Inserted(Inserted(d, b), a)
  {
    SecondBehindParent(d, p, a, b, IndexOf(d.flat, p));
    SecondBehindParent(d, p, b, a, IndexOf(d.flat, p));
  }

  // ----- Different live parents -----

  /** Two newcomers under different live parents; either may be a line break. */
  ghost predicate Apart(d: Doc, a: Crdt, b: Crdt) {
    Lands(d.chars, a) && Lands(d.chars, b) && a.who != b.who && a.relation.parent != b.relation.parent &&
    !d.chars[a.relation.parent].deleted && !d.chars[b.relation.parent].deleted &&
    !a.relation.deleted && !b.relation.deleted
  }

  /** The tie-break carries `a` from behind its parent past `q`: everything up to and including
      `q` is a sibling that outranks `a`. */
  ghost predicate Overtakes(d: Doc, a: Crdt, q: Ident) {
    var p := a.relation.parent;
    p in d.flat && q in d.flat && IndexOf(d.flat, p) < IndexOf(d.flat, q) && !IsLineBreak(a.relation.value) &&
    forall k :: IndexOf(d.flat, p) < k <= IndexOf(d.flat, q) ==> Skips(d.chars, d.flat[k], p, a.who)
  }

  lemma {:induction false} ScanReaches(d: Doc, t: nat, j: nat, p: Ident, me: Ident)
    requires t <= j < |d.flat| && forall k :: t <= k <= j ==> Skips(d.chars, d.flat[k], p, me)
    ensures Scan(d, t, p, me) > j
    decreases j - t
  {
    if t < j { ScanReaches(d, t + 1, j, p, me); }
  }

  lemma OvertakesIsSlot(d: Doc, a: Crdt, q: Ident)
    requires WellFormed(d) && Lands(d.chars, a) && !d.chars[a.relation.parent].deleted
    requires q in d.flat && IndexOf(d.flat, a.relation.parent) < IndexOf(d.flat, q)
    ensures Overtakes(d, a, q) <==> Slot(d, a) > IndexOf(d.flat, q)
  {
    var p := a.relation.parent;
    if Overtakes(d, a, q) { ScanReaches(d, IndexOf(d.flat, p) + 1, IndexOf(d.flat, q), p, a.who); }
  }

  /** The scan behind index `j` for a child of `q`, once `a` has gone in at `s`. */
  lemma BackScan(d: Doc, d': Doc, a: Crdt, s: nat, j: nat, q: Ident, me: Ident)
    requires j < |d.flat| && s <= |d.flat| && d'.flat == InsertAt(d.flat, s, a.who)
    requires a.who in d'.chars && d'.chars[a.who] == a.relation && q != a.relation.parent
    requires Agrees(d, d')
    requires forall k :: j < k < s ==> Skips(d.chars, d.flat[k], a.relation.parent, a.who)
    ensures if j < s then Scan(d', j + 1, q, me) == j + 1 else Scan(d', j + 2, q, me) == Scan(d, j + 1, q, me) + 1
  {
    if j < s {
      ScanAcross(d, d', s, a.who, j + 1, q, me);
      assert j + 1 < s ==> Skips(d.chars, d.flat[j + 1], a.relation.parent, a.who);
    } else {
      ScanBehind(d, d', s, a.who, j + 1, q, me);
    }
  }

  /** The scan behind index `i` for a child of `p`, once `b` has gone in at `s`, behind index `j`. */
  lemma FrontScan(d: Doc, d': Doc, b: Crdt, s: nat, i: nat, j: nat, p: Ident, me: Ident)
    requires i < j < s <= |d.flat| && d'.flat == InsertAt(d.flat, s, b.who)
    requires b.who in d'.chars && d'.chars[b.who] == b.relation && p != b.relation.parent
    requires Agrees(d, d')
    requires forall k :: j < k < s ==> Skips(d.chars, d.flat[k], b.relation.parent, b.who)
    ensures Scan(d', i + 1, p, me) == if Scan(d, i + 1, p, me) > j then j + 1 else Scan(d, i + 1, p, me)
  {
    ScanAcross(d, d', s, b.who, i + 1, p, me);
    assert j + 1 < s ==> Skips(d.chars, d.flat[j + 1], b.relation.parent, b.who);
  }

  lemma ApartInsert(d: Doc, a: Crdt, q: Ident)
    requires WellFormed(d) && Lands(d.chars, a) && !d.chars[a.relation.parent].deleted
    requires !a.relation.deleted && Live(d.chars, q)
    ensures var d', s := Inserted(d, a), Slot(d, a);
      WellFormed(d') && d'.flat == InsertAt(d.flat, s, a.who) &&
      q in d'.chars &&
        Start(d', q) == (if IndexOf(d.flat, q) < s then IndexOf(d.flat, q) + 1 else IndexOf(d.flat, q) + 2)
    ensures Agrees(d, Inserted(d, a)) && a.who in Inserted(d, a).chars && Inserted(d, a).chars[a.who] == a.relation
  {
    AnchoredAddKeepsWellFormed(d, a);
    IndexAfterInsert(d.flat, Slot(d, a), a.who, q);
  }

  lemma BehindSlot(d: Doc, a: Crdt, j: nat)
    requires WellFormed(d) && Live(d.chars, a.relation.parent) && IndexOf(d.flat, a.relation.parent) < j
    ensures forall k :: j < k < Slot(d, a) ==> Skips(d.chars, d.flat[k], a.relation.parent, a.who)
  {}

  lemma BackSlotFrom(d: Doc, d': Doc, a: Crdt, b: Crdt, s: nat, j: nat)
    requires Sound(d) && Sound(d') && b.relation.parent in d.chars && b.relation.parent in d'.chars
    requires j < |d.flat| && s <= |d.flat| && d'.flat == InsertAt(d.flat, s, a.who) && Agrees(d, d')
    requires a.who in d'.chars && d'.chars[a.who] == a.relation && b.relation.parent != a.relation.parent
    requires Start(d, b.relation.parent) == j + 1 && Start(d', b.relation.parent) == if j < s then j + 1 else j + 2
    requires forall k :: j < k < s ==> Skips(d.chars, d.flat[k], a.relation.parent, a.who)
    ensures Slot(d', b) == if j < s then j + 1 else Slot(d, b) + 1
  {
    BackScan(d, d', a, s, j, b.relation.parent, b.who);
  }

  /** Where `b`, under the later parent, goes once `a` is in. */
  lemma BackSlot(d: Doc, a: Crdt, b: Crdt)
    requires WellFormed(d) && Apart(d, a, b) && IndexOf(d.flat, a.relation.parent) < IndexOf(d.flat, b.relation.parent)
    ensures WellFormed(Inserted(d, a))
    ensures Slot(Inserted(d, a), b) ==
      if Slot(d, a) > IndexOf(d.flat, b.relation.parent) then IndexOf(d.flat, b.relation.parent) + 1 else Slot(d, b) + 1
  {
    var q := b.relation.parent;
    ApartInsert(d, a, q);
    var d', s, j := Inserted(d, a), Slot(d, a), IndexOf(d.flat, q);
    BehindSlot(d, a, j);
    BackSlotFrom(d, d', a, b, s, j);
  }

  /** Where `a`, under the earlier parent, goes once `b` is in. */
  lemma FrontSlot(d: Doc, a: Crdt, b: Crdt)
    requires WellFormed(d) && Apart(d, a, b) && IndexOf(d.flat, a.relation.parent) < IndexOf(d.flat, b.relation.parent)
    ensures WellFormed(Inserted(d, b))
    ensures Slot(Inserted(d, b), a) ==
      if Slot(d, a) > IndexOf(d.flat, b.relation.parent) then IndexOf(d.flat, b.relation.parent) + 1 else Slot(d, a)
  {
    var p, q := a.relation.parent, b.relation.parent;
    ApartInsert(d, b, p);
    if !IsLineBreak(a.relation.value) {
      FrontScan(d, Inserted(d, b), b, Slot(d, b), IndexOf(d.flat, p), IndexOf(d.flat, q), p, a.who);
    }
  }

  /** Second inserts land on plain lists too. */
  lemma BothFlat(d: Doc, a: Crdt, b: Crdt)
    requires WellFormed(d) && Apart(d, a, b)
    ensures Sound(Inserted(d, a)) && Lands(Inserted(d, a).chars, b)
    ensures Inserted(Inserted(d, a), b) ==
      Doc(d.chars[a.who := a.relation][b.who := b.relation],
          InsertAt(InsertAt(d.flat, Slot(d, a), a.who), Slot(Inserted(d, a), b), b.who))
  {
    AddKeepsSound(d, a);
  }

  lemma BothSlots(d: Doc, a: Crdt, b: Crdt)
    requires WellFormed(d) && Apart(d, a, b) && IndexOf(d.flat, a.relation.parent) < IndexOf(d.flat, b.relation.parent)
    ensures WellFormed(Inserted(d, a)) && WellFormed(Inserted(d, b))
    ensures var j := IndexOf(d.flat, b.relation.parent);
      Slot(Inserted(d, a), b) == (if Slot(d, a) > j then j + 1 else Slot(d, b) + 1) &&
      Slot(Inserted(d, b), a) == (if Slot(d, a) > j then j + 1 else Slot(d, a)) && j < Slot(d, b) <= |d.flat|
  {
    BackSlot(d, a, b);
    FrontSlot(d, a, b);
  }

  lemma FrontAndBackCommuteIff(d: Doc, a: Crdt, b: Crdt)
    requires WellFormed(d) && Apart(d, a, b) && IndexOf(d.flat, a.relation.parent) < IndexOf(d.flat, b.relation.parent)
    ensures WellFormed(Inserted(d, a)) && WellFormed(Inserted(d, b))
    ensures Inserted(Inserted(d, a), b) == Inserted(Inserted(d, b), a) <==> !Overtakes(d, a, b.relation.parent)
  {
    OvertakesIsSlot(d, a, b.relation.parent);
    BothSlots(d, a, b);
    BothFlat(d, a, b);
    BothFlat(d, b, a);
    FlatsEqualIff(d.flat, Slot(d, a), Slot(d, b), IndexOf(d.flat, b.relation.parent),
                  Slot(Inserted(d, a), b), Slot(Inserted(d, b), a), a.who, b.who);
    UpdatesSwap(d.chars, a, b);
  }

  lemma UpdatesSwap(chars: Chars, a: Crdt, b: Crdt)
    requires a.who != b.who
    ensures chars[a.who := a.relation][b.who := b.relation] == chars[b.who := b.relation][a.who := a.relation]
  {}

  lemma FlatsEqualIff(f: seq<Ident>, s: nat, t: nat, j: nat, t': nat, s': nat, a: Ident, b: Ident)
    requires s <= |f| && j < t <= |f| && a != b
    requires if s > j then t' == s' == j + 1 else t' == t + 1 && s' == s
    ensures InsertAt(InsertAt(f, s, a), t', b) == InsertAt(InsertAt(f, t, b), s', a) <==> s <= j
  {
    if s > j {
      assert InsertAt(InsertAt(f, s, a), t', b)[t'] != InsertAt(InsertAt(f, t, b), s', a)[t'];
    } else {
      InsertTwice(f, s, t, a, b);
    }
  }

  /** Being carried past a node takes that the node is an outranking sibling. */
  lemma OvertakenIsElder(d: Doc, a: Crdt, q: Ident)
    ensures Overtakes(d, a, q) ==> q in d.chars && d.chars[q].parent == a.relation.parent && Outranks(q, a.who)
  {
    assert Overtakes(d, a, q) ==> Skips(d.chars, d.flat[IndexOf(d.flat, q)], a.relation.parent, a.who);
  }

  /** What stands in front of both is not overtaken. */
  lemma NotOvertaken(d: Doc, a: Crdt, q: Ident)
    requires a.relation.parent in d.flat && q in d.flat && IndexOf(d.flat, q) <= IndexOf(d.flat, a.relation.parent)
    ensures !Overtakes(d, a, q)
  {}

  /** Inserts under different live parents commute exactly when neither is carried past the
      other's parent, which takes a parent that is itself an outranking sibling of the newcomer. */
  lemma InsertsCommuteIff(d: Doc, a: Crdt, b: Crdt)
    requires WellFormed(d) && Apart(d, a, b)
    ensures WellFormed(Inserted(d, a)) && WellFormed(Inserted(d, b))
    ensures Inserted(Inserted(d, a), b) == Inserted(Inserted(d, b), a) <==>
      !Overtakes(d, a, b.relation.parent) && !Overtakes(d, b, a.relation.parent)
    ensures Overtakes(d, a, b.relation.parent) ==>
      d.chars[b.relation.parent].parent == a.relation.parent && Outranks(b.relation.parent, a.who)
  {
    var p, q := a.relation.parent, b.relation.parent;
    OvertakenIsElder(d, a, q);
    if IndexOf(d.flat, p) < IndexOf(d.flat, q) {
      NotOvertaken(d, b, p);
      FrontAndBackCommuteIff(d, a, b);
    } else {
      NotOvertaken(d, a, q);
      IndicesDiffer(d.flat, p, q);
      FrontAndBackCommuteIff(d, b, a);
    }
  }

  // ----- Removes -----

  /** `chars` with the members of `gone` tombstoned. */
  function Buried(chars: Chars, gone: set<Ident>): Chars {
    map x | x in chars :: if x in gone && x != ROOT then chars[x].(deleted := true) else chars[x]
  }

  function Spared(s: seq<Ident>, gone: set<Ident>): seq<Ident> {
    if s == [] then [] else (if s[0] in gone && s[0] != ROOT then [] else [s[0]]) + Spared(s[1..], gone)
  }

  function RemoveAll(d: Doc, targets: seq<Ident>): Doc
    decreases |targets|
  {
    if targets == [] then d else RemoveAll(Remove(d, targets[0]), targets[1..])
  }

  lemma {:induction false} SparedStep(s: seq<Ident>, x: Ident, gone: set<Ident>)
    requires x != ROOT
    ensures Spared(Erase(s, x), gone) == Spared(s, gone + {x})
  {
    if s != [] {
      SparedStep(s[1..], x, gone);
      var t := Erase(s[1..], x);
      if s[0] == x {
        assert Erase(s, x) == t;
      } else {
        assert Erase(s, x) == [s[0]] + t && ([s[0]] + t)[1..] == t;
        assert s[0] in gone + {x} <==> s[0] in gone;
      }
    }
  }

  lemma {:induction false} SparedNone(s: seq<Ident>, gone: set<Ident>)
    requires forall x :: x in s && x in gone ==> x == ROOT
    ensures Spared(s, gone) == s
  {
    if s != [] { SparedNone(s[1..], gone); }
  }

  /** Any removes, in any order and with any repeats, tombstone their targets and take them off
      the list, and do nothing else. */
  lemma {:induction false} RemovesAnyOrder(d: Doc, targets: seq<Ident>, gone: set<Ident>)
    requires WellFormed(d) && forall x :: x in gone <==> x in targets
    ensures RemoveAll(d, targets) == Doc(Buried(d.chars, gone), Spared(d.flat, gone))
    decreases |targets|
  {
    if targets == [] {
      SparedNone(d.flat, gone);
      assert Buried(d.chars, gone) == d.chars;
    } else {
      var x, rest := targets[0], set y | y in targets[1..];
      RemoveKeepsWellFormed(d, x);
      RemovesAnyOrder(Remove(d, x), targets[1..], rest);
      assert gone == rest + {x} by { assert targets == [x] + targets[1..]; }
      RemoveThenBury(d, x, rest);
    }
  }

  lemma RemoveThenBury(d: Doc, x: Ident, rest: set<Ident>)
    requires WellFormed(d)
    ensures Buried(Remove(d, x).chars, rest) == Buried(d.chars, rest + {x})
    ensures Spared(Remove(d, x).flat, rest) == Spared(d.flat, rest + {x})
  {
    if x == ROOT {
      SparedSame(d.flat, rest, rest + {x});
    } else {
      SparedStep(d.flat, x, rest);
      if x !in d.flat { EraseAbsent(d.flat, x); }
    }
  }

  lemma {:induction false} SparedSame(s: seq<Ident>, gone: set<Ident>, gone': set<Ident>)
    requires gone + {ROOT} == gone' + {ROOT}
    ensures Spared(s, gone) == Spared(s, gone')
  {
    if s != [] {
      SparedSame(s[1..], gone, gone');
      assert s[0] != ROOT ==> (s[0] in gone + {ROOT} <==> s[0] in gone) && (s[0] in gone' + {ROOT} <==> s[0] in gone');
    }
  }
}
