/** When two inserts commute, for every pair of anchored newcomers: siblings or not, line breaks or
    not, under live parents or tombstones. */
module InsertInsert {
  import opened Types
  import opened CharTree
  import opened Lists
  import opened Document
  import opened Shape
  import opened TreeOrder
  import opened Commute
  import opened InsertRemove

  // ----- On which side of the first newcomer the second one goes -----

  /** In front of the other newcomer, behind it, or kept in front of it by it. */
  datatype Side = Front | Behind | Blocked

  /** The tie-break of `x` under `q` walks past the newcomer `a`. */
  predicate Passes(a: Crdt, q: Ident, x: Ident) {
    a.relation.parent == q && !IsLineBreak(a.relation.value) && Outranks(a.who, x)
  }

  /** Where the children of `q` start, seen from `a`, if `a` is first. */
  ghost function StartSide(d: Doc, a: Crdt, q: Ident): Side
    requires Sound(d) && a.relation.parent in d.chars && q in d.chars
    decreases Ranks(d.chars)[q], 0
  {
    if d.chars[q].deleted then ReachSide(d, a, d.chars[q].parent, q)
    else if IndexOf(d.flat, q) < Slot(d, a) then Front else Behind
  }

  /** Where the tie-break of `x` under `q` ends: unless it was behind `a` before, it has to come up to
      `a` to get there, and stops at `a` if it does not walk past it. */
  ghost function ReachSide(d: Doc, a: Crdt, q: Ident, x: Ident): Side
    requires Sound(d) && a.relation.parent in d.chars && q in d.chars
    decreases Ranks(d.chars)[q], 1
  {
    var side, s, r := StartSide(d, a, q), Slot(d, a), Reach(d, q, x);
    if side != Front || r < s then side
    else if Passes(a, q, x) then Behind
    else if r == s then Front else Blocked
  }

  ghost function SideOf(d: Doc, a: Crdt, b: Crdt): Side
    requires Sound(d) && a.relation.parent in d.chars && b.relation.parent in d.chars
  {
    if IsLineBreak(b.relation.value) then StartSide(d, a, b.relation.parent)
    else ReachSide(d, a, b.relation.parent, b.who)
  }

  /** Seen from each of the two, the other one goes to the opposite side. */
  ghost predicate Opposite(d: Doc, a: Crdt, b: Crdt)
    requires Sound(d) && a.relation.parent in d.chars && b.relation.parent in d.chars
  {
    (SideOf(d, a, b) == Front && SideOf(d, b, a) == Behind) || (SideOf(d, a, b) == Behind && SideOf(d, b, a) == Front)
  }

  // ----- What the side means -----

  /** `d'` is `d` with `a` put in at `s`. */
  ghost predicate Gains(d: Doc, d': Doc, a: Crdt, s: nat) {
    && Sound(d) && Sound(d') && Distinct(d.flat) && a.who !in d.chars && (forall y :: y in d.flat ==> y in d.chars)
    && a.relation.parent in d.chars && s == Slot(d, a)
    && d'.flat == InsertAt(d.flat, s, a.who) && d'.chars == d.chars[a.who := a.relation]
  }

  /** What place `t` of `d` has become in `d'`. If `a` blocks, what it keeps back would have gone behind
      the element at `s`, which hangs from `h` or from above `h`. */
  ghost predicate Moved(d: Doc, s: nat, side: Side, t: nat, t': nat, h: Ident)
    requires Rooted(d.chars) && h in d.chars
  {
    match side
    case Front => t' == t <= s
    case Behind => s <= t && t' == t + 1
    case Blocked => s <= t' <= s + 1 && s < t && s < |d.flat| && HangsFrom(d.chars, d.flat[s], h)
  }

  lemma LiveStartMoves(d: Doc, d': Doc, a: Crdt, s: nat, q: Ident)
    requires Gains(d, d', a, s) && Live(d.chars, q)
    ensures q in d'.chars && Moved(d, s, StartSide(d, a, q), Start(d, q), Start(d', q), q)
  {
    IndexAfterInsert(d.flat, s, a.who, q);
  }

  /** One link, with the start moved to `side`. */
  lemma LinkMoves(d: Doc, d': Doc, a: Crdt, s: nat, side: Side, t: nat, t': nat, q: Ident, x: Ident)
    requires Gains(d, d', a, s) && q in d.chars && q in d'.chars && t <= |d.flat| && t' <= |d'.flat| && side != Blocked
    requires Moved(d, s, side, t, t', q)
    ensures var r := Scan(d, t, q, x);
      Moved(d, s,
        if side != Front || r < s then side else if Passes(a, q, x) then Behind else if r == s then Front else Blocked,
            r, Scan(d', t', q, x), q)
  {
    assert Skips(d'.chars, a.who, q, x) <==> Passes(a, q, x);
    if side == Front {
      ScanAcross(d, d', s, a.who, t, q, x);
    } else {
      ScanBehind(d, d', s, a.who, t, q, x);
    }
  }

  /** Once blocked, blocked: what would come next hangs too high for any later link. */
  lemma StaysBlocked(d: Doc, d': Doc, a: Crdt, s: nat, t: nat, t': nat, h: Ident, q: Ident, x: Ident)
    requires Gains(d, d', a, s) && q in d.chars && q in d'.chars && q != ROOT && d.chars[q].parent == h && h in d.chars
    requires t <= |d.flat| && t' <= |d'.flat| && Moved(d, s, Blocked, t, t', h)
    ensures Moved(d, s, Blocked, Scan(d, t, q, x), Scan(d', t', q, x), q)
  {
    InsertShifts(d.flat, s, a.who);
    AboveIsPathOfParent(d.chars, h, q);
    assert d'.flat[s] == a.who && d'.flat[s + 1] == d.flat[s];
    assert !Skips(d'.chars, d.flat[s], q, x);
  }

  lemma LiveReachMoves(d: Doc, d': Doc, a: Crdt, s: nat, q: Ident, x: Ident)
    requires Gains(d, d', a, s) && Live(d.chars, q) && q in d'.chars
    ensures Moved(d, s, ReachSide(d, a, q, x), Reach(d, q, x), Reach(d', q, x), q)
  {
    LiveStartMoves(d, d', a, s, q);
    LinkMoves(d, d', a, s, StartSide(d, a, q), Start(d, q), Start(d', q), q, x);
  }

  lemma DeadReachMoves(d: Doc, d': Doc, a: Crdt, s: nat, h: Ident, q: Ident, x: Ident)
    requires Gains(d, d', a, s) && q in d.chars && q in d'.chars && q != ROOT && d.chars[q].deleted
    requires d.chars[q].parent == h && h in d.chars
    requires Moved(d, s, ReachSide(d, a, h, q), Start(d, q), Start(d', q), h)
    ensures Moved(d, s, ReachSide(d, a, q, x), Reach(d, q, x), Reach(d', q, x), q)
  {
    var side := StartSide(d, a, q);
    if side == Blocked {
      StaysBlocked(d, d', a, s, Start(d, q), Start(d', q), h, q, x);
    } else {
      LinkMoves(d, d', a, s, side, Start(d, q), Start(d', q), q, x);
    }
  }

  lemma {:induction false} ReachMoves(d: Doc, d': Doc, a: Crdt, s: nat, q: Ident, x: Ident)
    requires Gains(d, d', a, s) && WellFormed(d) && WellFormed(d') && q in d.chars && q in d'.chars
    requires !ReachesRoot(d.chars, q) && !ReachesRoot(d'.chars, q)
    ensures Moved(d, s, ReachSide(d, a, q, x), Reach(d, q, x), Reach(d', q, x), q)
    decreases Ranks(d.chars)[q]
  {
    if !d.chars[q].deleted {
      LiveReachMoves(d, d', a, s, q, x);
    } else {
      var h := d.chars[q].parent;
      ClimbIsScan(d, q);
      ClimbIsScan(d', q);
      ReachMoves(d, d', a, s, h, q);
      DeadReachMoves(d, d', a, s, h, q, x);
    }
  }

  /** Two anchored newcomers on their way at once. */
  ghost predicate Pair(d: Doc, a: Crdt, b: Crdt) {
    WellFormed(d) && Lands(d.chars, a) && Lands(d.chars, b) && Anchored(d.chars, a) && Anchored(d.chars, b) &&
      a.who != b.who
  }

  lemma FirstIn(d: Doc, a: Crdt, b: Crdt)
    requires Pair(d, a, b)
    ensures WellFormed(Inserted(d, a)) && Gains(d, Inserted(d, a), a, Slot(d, a))
    ensures Lands(Inserted(d, a).chars, b) && Anchored(Inserted(d, a).chars, b)
  {
    AnchoredAddKeepsWellFormed(d, a);
    ReachesRootFrame(d.chars, Inserted(d, a).chars, b.relation.parent);
  }

  lemma SlotMoves(d: Doc, a: Crdt, b: Crdt)
    requires Pair(d, a, b) && Sound(Inserted(d, a)) && b.relation.parent in Inserted(d, a).chars
    ensures Moved(d, Slot(d, a), SideOf(d, a, b), Slot(d, b), Slot(Inserted(d, a), b), b.relation.parent)
  {
    FirstIn(d, a, b);
    if IsLineBreak(b.relation.value) {
      LiveStartMoves(d, Inserted(d, a), a, Slot(d, a), b.relation.parent);
    } else {
      ReachMoves(d, Inserted(d, a), a, Slot(d, a), b.relation.parent, b.who);
    }
  }

  // ----- The two lists -----

  function AThenB(f: seq<Ident>, s: nat, a: Ident, t': nat, b: Ident): seq<Ident>
    requires s <= |f| && t' <= |f| + 1
  {
    InsertAt(InsertAt(f, s, a), t', b)
  }

  lemma SecondIn(d: Doc, a: Crdt, b: Crdt)
    requires Pair(d, a, b) && Sound(Inserted(d, a)) && b.relation.parent in Inserted(d, a).chars
    ensures Slot(Inserted(d, a), b) <= |d.flat| + 1
    ensures Inserted(Inserted(d, a), b) ==
      Doc(d.chars[a.who := a.relation][b.who := b.relation],
        AThenB(d.flat, Slot(d, a), a.who, Slot(Inserted(d, a), b), b.who))
  {
    FirstIn(d, a, b);
    AnchoredAddKeepsWellFormed(Inserted(d, a), b);
  }

  lemma SidesDiffer(f: seq<Ident>, s: nat, t: nat, s': nat, t': nat, a: Ident, b: Ident)
    requires s <= |f| && t <= |f| && s' <= |f| + 1 && t' <= |f| + 1
    requires (t' == t <= s && s' == s + 1) || (s' == s <= t && t' == t + 1)
    ensures AThenB(f, s, a, t', b) == AThenB(f, t, b, s', a)
  {
    if t' == t <= s && s' == s + 1 { InsertTwice(f, t, s, b, a); } else { InsertTwice(f, s, t, a, b); }
  }

  lemma SidesAgree(f: seq<Ident>, s: nat, t: nat, s': nat, t': nat, a: Ident, b: Ident)
    requires s == t <= |f| && a != b && (s' == t' == s || s' == t' == s + 1)
    ensures AThenB(f, s, a, t', b) != AThenB(f, t, b, s', a)
  {
    if t' == s {
      assert AThenB(f, s, a, t', b)[s] == b && AThenB(f, t, b, s', a)[s] == a;
    } else {
      assert AThenB(f, s, a, t', b)[s + 1] == b && AThenB(f, t, b, s', a)[s + 1] == a;
    }
  }

  /** A newcomer that is blocked ends up in front of what it goes behind in the other order. */
  lemma BlockedDiffers(f: seq<Ident>, s: nat, t: nat, s': nat, t': nat, a: Ident, b: Ident)
    requires Distinct(f) && a !in f && b !in f && a != b && s < |f| && s < t <= |f| && s <= t' <= s + 1 && s' <= |f| + 1
    ensures AThenB(f, s, a, t', b) != AThenB(f, t, b, s', a)
  {
    var y := f[s];
    BlockedFirst(f, s, t', a, b);
    IndexUnique(f, s);
    DistinctInsert(f, t, b);
    IndexAfterInsert(f, t, b, y);
    AheadAfterInsert(InsertAt(f, t, b), s', a, y, b);
  }

  lemma BlockedFirst(f: seq<Ident>, s: nat, t': nat, a: Ident, b: Ident)
    requires Distinct(f) && a !in f && b !in f && a != b && s < |f| && s <= t' <= s + 1
    ensures !Ahead(AThenB(f, s, a, t', b), f[s], b)
  {
    IndexUnique(f, s);
    DistinctInsert(f, s, a);
    IndexAfterInsert(f, s, a, f[s]);
    IndexAfterInsert(InsertAt(f, s, a), t', b, f[s]);
  }

  lemma ListsEqualIff(d: Doc, a: Crdt, b: Crdt, side: Side, side': Side, s: nat, t: nat, s': nat, t': nat, p: Ident,
                      q: Ident)
    requires Rooted(d.chars) && p in d.chars && q in d.chars && Distinct(d.flat) && a.who !in d.flat
    requires b.who !in d.flat && a.who != b.who
    requires s <= |d.flat| && t <= |d.flat| && s' <= |d.flat| + 1 && t' <= |d.flat| + 1
    requires Moved(d, s, side, t, t', q) && Moved(d, t, side', s, s', p)
    ensures AThenB(d.flat, s, a.who, t', b.who) == AThenB(d.flat, t, b.who, s', a.who) <==>
      (side == Front && side' == Behind) || (side == Behind && side' == Front)
  {
    if side == Blocked {
      BlockedDiffers(d.flat, s, t, s', t', a.who, b.who);
    } else if side' == Blocked {
      BlockedDiffers(d.flat, t, s, t', s', b.who, a.who);
    } else if side == side' {
      SidesAgree(d.flat, s, t, s', t', a.who, b.who);
    } else {
      SidesDiffer(d.flat, s, t, s', t', a.who, b.who);
    }
  }

  // ----- The theorem -----

  /** Two anchored inserts commute exactly when, seen from each of them, the other one goes to the
      opposite side: neither is kept back by the other, and a tie in one order is the same tie in the other. */
  lemma InsertInsertCommuteIff(d: Doc, a: Crdt, b: Crdt)
    requires Pair(d, a, b)
    ensures WellFormed(Inserted(d, a)) && WellFormed(Inserted(d, b))
    ensures b.relation.parent in Inserted(d, a).chars && a.relation.parent in Inserted(d, b).chars
    ensures Inserted(Inserted(d, a), b) == Inserted(Inserted(d, b), a) <==> Opposite(d, a, b)
  {
    FirstIn(d, a, b);
    FirstIn(d, b, a);
    SlotMoves(d, a, b);
    SlotMoves(d, b, a);
    SecondIn(d, a, b);
    SecondIn(d, b, a);
    UpdatesSwap(d.chars, a, b);
    ListsEqualIff(d, a, b, SideOf(d, a, b), SideOf(d, b, a), Slot(d, a), Slot(d, b),
                  Slot(Inserted(d, b), a), Slot(Inserted(d, a), b), a.relation.parent, b.relation.parent);
  }
}
