/** When an insert and a remove commute: never mind that they touch different characters, the one
    that is removed may be what stops the tie-break of the one that is inserted. */
module InsertRemove {
  import opened Types
  import opened CharTree
  import opened Lists
  import opened Document
  import opened Shape
  import opened TreeOrder

  // ----- A scan on a list that has lost an element -----

  /** `d'` lists what `d` lists, without the element at `j`, with the same relations. */
  ghost predicate Loses(d: Doc, d': Doc, j: nat) {
    j < |d.flat| && d'.flat == d.flat[..j] + d.flat[j + 1..] && Agrees(d', d)
  }

  lemma LossShifts(d: Doc, d': Doc, j: nat, k: nat, p: Ident, me: Ident)
    requires Loses(d, d', j) && k < |d'.flat|
    ensures k < j ==> d'.flat[k] == d.flat[k]
    ensures k >= j ==> d'.flat[k] == d.flat[k + 1]
    ensures Skips(d'.chars, d'.flat[k], p, me) <==> Skips(d.chars, d'.flat[k], p, me)
  {
    assert d'.flat[k] in d'.flat;
  }

  lemma {:induction false} ScanBehindLoss(d: Doc, d': Doc, j: nat, t: nat, p: Ident, me: Ident)
    requires Loses(d, d', j) && j < t <= |d.flat|
    ensures Scan(d', t - 1, p, me) == Scan(d, t, p, me) - 1
    decreases |d.flat| - t
  {
    if t < |d.flat| {
      LossShifts(d, d', j, t - 1, p, me);
      if Skips(d.chars, d.flat[t], p, me) { ScanBehindLoss(d, d', j, t + 1, p, me); }
    }
  }

  lemma {:induction false} ScanAcrossLoss(d: Doc, d': Doc, j: nat, t: nat, p: Ident, me: Ident)
    requires Loses(d, d', j) && t <= j
    ensures var r := Scan(d, t, p, me);
      Scan(d', t, p, me) == if r < j then r else Scan(d, j + 1, p, me) - 1
    decreases j - t
  {
    if t < j {
      LossShifts(d, d', j, t, p, me);
      if Skips(d.chars, d.flat[t], p, me) { ScanAcrossLoss(d, d', j, t + 1, p, me); }
    } else {
      ScanBehindLoss(d, d', j, j + 1, p, me);
    }
  }

  /** A scan from `t`, once index `j` is gone. */
  lemma ScanAfterLoss(d: Doc, d': Doc, j: nat, t: nat, t': nat, p: Ident, me: Ident)
    requires Loses(d, d', j) && t <= |d.flat| && t' == if t <= j then t else t - 1
    ensures t' <= |d'.flat|
    ensures Scan(d', t', p, me) == (if j < Scan(d, t, p, me) then Scan(d, t, p, me) - 1 else Scan(d, t, p, me)) <==>
      !(Scan(d, t, p, me) == j && Scan(d, j + 1, p, me) > j + 1)
  {
    if j < t {
      ScanBehindLoss(d, d', j, t, p, me);
    } else {
      ScanAcrossLoss(d, d', j, t, p, me);
      if j < Scan(d, t, p, me) { ScanOn(d, t, j, p, me); }
    }
  }

  /** A scan that passes an index goes where the scan behind that index goes. */
  lemma {:induction false} ScanOn(d: Doc, t: nat, j: nat, p: Ident, me: Ident)
    requires t <= j < |d.flat| && Scan(d, t, p, me) > j
    ensures Scan(d, t, p, me) == Scan(d, j + 1, p, me)
    decreases j - t
  {
    if t < j { ScanOn(d, t + 1, j, p, me); }
  }

  // ----- Lists -----

  lemma CutBefore<T>(s: seq<T>, i: nat, x: T, j: nat)
    requires j < i <= |s|
    ensures InsertAt(s, i, x)[..j] + InsertAt(s, i, x)[j + 1..] == InsertAt(s[..j] + s[j + 1..], i - 1, x)
  {
    var m := s[..j] + s[j + 1..i] + [x] + s[i..];
    assert (s[..j] + s[j + 1..])[..i - 1] == s[..j] + s[j + 1..i] && (s[..j] + s[j + 1..])[i - 1..] == s[i..];
    assert InsertAt(s, i, x)[..j] == s[..j] && InsertAt(s, i, x)[j + 1..] == s[j + 1..i] + [x] + s[i..];
  }

  lemma CutBehind<T>(s: seq<T>, i: nat, x: T, j: nat)
    requires i <= j < |s|
    ensures InsertAt(s, i, x)[..j + 1] + InsertAt(s, i, x)[j + 2..] == InsertAt(s[..j] + s[j + 1..], i, x)
  {
    assert (s[..j] + s[j + 1..])[..i] == s[..i] && (s[..j] + s[j + 1..])[i..] == s[i..j] + s[j + 1..];
    assert InsertAt(s, i, x)[..j + 1] == s[..i] + [x] + s[i..j] && InsertAt(s, i, x)[j + 2..] == s[j + 1..];
  }

  lemma EraseAt<T(!new)>(s: seq<T>, k: nat, y: T)
    requires Distinct(s) && k < |s| && s[k] == y
    ensures Erase(s, y) == s[..k] + s[k + 1..]
  {
    EraseSplits(s, k);
  }

  lemma InsertedAt<T(!new)>(s: seq<T>, i: nat, x: T, j: nat, k: nat)
    requires Distinct(s) && x !in s && i <= |s| && j < |s| && k == if j < i then j else j + 1
    ensures Distinct(InsertAt(s, i, x)) && InsertAt(s, i, x)[k] == s[j]
  {
    DistinctInsert(s, i, x);
    InsertShifts(s, i, x);
  }

  /** Erasing from a list that has gained an element. */
  lemma EraseBeside<T(!new)>(s: seq<T>, i: nat, x: T, j: nat, y: T)
    requires Distinct(s) && x !in s && i <= |s| && j < |s| && y == s[j]
    ensures |Erase(s, y)| == |s| - 1
    ensures j < i ==> Erase(InsertAt(s, i, x), y) == InsertAt(Erase(s, y), i - 1, x)
    ensures j >= i ==> Erase(InsertAt(s, i, x), y) == InsertAt(Erase(s, y), i, x)
  {
    var k := if j < i then j else j + 1;
    var t := InsertAt(s, i, x);
    EraseAt(s, j, y);
    InsertedAt(s, i, x, j, k);
    EraseAt(t, k, y);
    if j < i { CutBefore(s, i, x, j); } else { CutBehind(s, i, x, j); }
  }

  lemma InsertAtIsInjective<T>(s: seq<T>, i: nat, k: nat, x: T)
    requires i <= |s| && k <= |s| && x !in s
    ensures InsertAt(s, i, x) == InsertAt(s, k, x) <==> i == k
  {
    if i < k { InsertShifts(s, k, x); assert InsertAt(s, k, x)[i] == s[i]; }
    if k < i { InsertShifts(s, i, x); assert InsertAt(s, i, x)[k] == s[k]; }
  }

  // ----- The two orders -----

  ghost predicate Removable(d: Doc, r: Ident) {
    WellFormed(d) && Live(d.chars, r) && r != ROOT
  }

  /** `a` and the remove of `r` are on their way at once. */
  ghost predicate Race(d: Doc, a: Crdt, r: Ident) {
    Removable(d, r) && Lands(d.chars, a) && Anchored(d.chars, a)
  }

  lemma RemoveLoses(d: Doc, r: Ident)
    requires Removable(d, r)
    ensures WellFormed(Remove(d, r)) && Loses(d, Remove(d, r), IndexOf(d.flat, r))
    ensures Remove(d, r).chars == Tombstoned(d.chars, r)
  {
    RemoveKeepsWellFormed(d, r);
    EraseSplits(d.flat, IndexOf(d.flat, r));
  }

  lemma TombstoneBeside(chars: Chars, a: Crdt, r: Ident)
    requires r in chars && a.who !in chars
    ensures Tombstoned(chars, r)[a.who := a.relation] == Tombstoned(chars[a.who := a.relation], r)
  {}

  /** Where index `s` is, once index `j` is gone. */
  function Shifted(s: nat, j: nat): nat {
    if j < s then s - 1 else s
  }

  /** Both orders insert `a` into the list without `r`: the question is where. */
  lemma SameSlotIff(d: Doc, a: Crdt, r: Ident)
    requires Race(d, a, r) && Sound(Remove(d, r)) && Anchored(Remove(d, r).chars, a)
    ensures Inserted(Remove(d, r), a) == Remove(Inserted(d, a), r) <==>
      Slot(Remove(d, r), a) == Shifted(Slot(d, a), IndexOf(d.flat, r))
  {
    var j, s, f := IndexOf(d.flat, r), Slot(d, a), Erase(d.flat, r);
    AnchoredAddKeepsWellFormed(d, a);
    EraseBeside(d.flat, s, a.who, j, r);
    TombstoneBeside(d.chars, a, r);
    RemoveLoses(d, r);
    AnchoredAddKeepsWellFormed(Remove(d, r), a);
    InsertAtIsInjective(f, Slot(Remove(d, r), a), Shifted(s, j), a.who);
  }

  // ----- Removing a node that the newcomer is not anchored to -----

  /** `r` stops the tie-break of `x` under `p`, and what is shown behind `r` would not. */
  ghost predicate Shields(d: Doc, r: Ident, p: Ident, x: Ident)
    requires Sound(d) && p in d.chars
  {
    var s := Reach(d, p, x);
    s + 1 < |d.flat| && d.flat[s] == r && Skips(d.chars, d.flat[s + 1], p, x)
  }

  /** The same for `x` or for one of the tombstones that its climb starts from. */
  ghost predicate Shielded(d: Doc, r: Ident, p: Ident, x: Ident)
    requires Sound(d) && p in d.chars
    decreases Ranks(d.chars)[p]
  {
    Shields(d, r, p, x) || (d.chars[p].deleted && Shielded(d, r, d.chars[p].parent, p))
  }

  lemma ShieldsIff(d: Doc, r: Ident, j: nat, p: Ident, x: Ident)
    requires Sound(d) && p in d.chars && Distinct(d.flat) && j < |d.flat| && d.flat[j] == r
    ensures Shields(d, r, p, x) <==> Reach(d, p, x) == j && Scan(d, j + 1, p, x) > j + 1
  {}

  lemma LiveStart(d: Doc, r: Ident, p: Ident)
    requires Removable(d, r) && Live(d.chars, p) && r != p
    ensures WellFormed(Remove(d, r)) && p in Remove(d, r).chars
    ensures Start(Remove(d, r), p) == Shifted(Start(d, p), IndexOf(d.flat, r))
  {
    RemoveLoses(d, r);
    IndexAfterErase(d.flat, r, p);
  }

  /** One link of the climb, when what is above it went well. */
  lemma LinkAfterLoss(d: Doc, d': Doc, r: Ident, j: nat, p: Ident, x: Ident)
    requires Removable(d, r) && Sound(d) && Sound(d') && Loses(d, d', j) && j == IndexOf(d.flat, r)
    requires p in d.chars && p in d'.chars && Start(d', p) == Shifted(Start(d, p), j)
    ensures !Shields(d, r, p, x) ==> Reach(d', p, x) == Shifted(Reach(d, p, x), j)
    ensures Shields(d, r, p, x) ==>
      Reach(d, p, x) == j < Reach(d', p, x) && j + 1 < |d.flat| &&
      d.flat[j + 1] in d.chars && d.chars[d.flat[j + 1]].parent == p
  {
    ScanAfterLoss(d, d', j, Start(d, p), Start(d', p), p, x);
    ShieldsIff(d, r, j, p, x);
    if Shields(d, r, p, x) { ScanAcrossLoss(d, d', j, Start(d, p), p, x); }
  }

  /** The shield that has come off lets a tombstone pass; what it passes stops every later link of the other order. */
  ghost predicate Parted(d: Doc, d': Doc, j: nat, p: Ident, s: nat, s': nat)
    requires Rooted(d.chars) && p in d.chars
  {
    j <= s <= j + 1 < |d.flat| && j < s' && HangsFrom(d.chars, d.flat[j + 1], p)
  }

  /** `y` is a child of `p` or of a node above `p`. */
  ghost predicate HangsFrom(chars: Chars, y: Ident, p: Ident)
    requires Rooted(chars) && p in chars
  {
    y in chars && chars[y].parent in chars && Path(chars, chars[y].parent) <= Path(chars, p)
  }

  lemma {:induction false} ReachAfterLoss(d: Doc, d': Doc, r: Ident, j: nat, p: Ident, x: Ident)
    requires Removable(d, r) && d' == Remove(d, r) && WellFormed(d') && j == IndexOf(d.flat, r)
    requires p in d.chars && p in d'.chars && r != Home(d.chars, p)
    requires !ReachesRoot(d.chars, p) && !ReachesRoot(d'.chars, p)
    ensures !Shielded(d, r, p, x) ==> Reach(d', p, x) == Shifted(Reach(d, p, x), j)
    ensures Shielded(d, r, p, x) ==> Parted(d, d', j, p, Reach(d, p, x), Reach(d', p, x))
    decreases Ranks(d.chars)[p]
  {
    RemoveLoses(d, r);
    if !d.chars[p].deleted {
      LiveStart(d, r, p);
      LinkAfterLoss(d, d', r, j, p, x);
    } else {
      var q := d.chars[p].parent;
      ClimbIsScan(d, p);
      ClimbIsScan(d', p);
      ReachAfterLoss(d, d', r, j, q, p);
      if !Shielded(d, r, q, p) {
        LinkAfterLoss(d, d', r, j, p, x);
      } else {
        LaterLinks(d, d', j, q, p, x);
      }
    }
  }

  lemma LaterLinks(d: Doc, d': Doc, j: nat, q: Ident, p: Ident, x: Ident)
    requires Sound(d) && Sound(d') && p in d.chars && p in d'.chars && p != ROOT && d.chars[p].parent == q
    requires q in d.chars
    requires Parted(d, d', j, q, Start(d, p), Start(d', p))
    ensures Parted(d, d', j, p, Reach(d, p, x), Reach(d', p, x))
  {
    AboveIsPathOfParent(d.chars, q, p);
    assert !Skips(d.chars, d.flat[j + 1], p, x);
  }

  /** The tombstones between a node and its nearest live ancestor stay tombstones, and no others join them. */
  lemma {:induction false} RootReachStays(d: Doc, r: Ident, p: Ident)
    requires Removable(d, r) && p in d.chars && r != Home(d.chars, p)
    ensures Rooted(Remove(d, r).chars) && p in Remove(d, r).chars
    ensures ReachesRoot(Remove(d, r).chars, p) <==> ReachesRoot(d.chars, p)
    decreases Ranks(d.chars)[p]
  {
    RootedAfterTombstone(d.chars, r);
    if d.chars[p].deleted { RootReachStays(d, r, d.chars[p].parent); }
  }

  lemma AwaySlotIff(d: Doc, d': Doc, a: Crdt, r: Ident)
    requires Removable(d, r) && d' == Remove(d, r) && WellFormed(d') && a.relation.parent in d.chars
    requires a.relation.parent in d'.chars
    requires Anchored(d.chars, a) && Anchored(d'.chars, a) && r != Home(d.chars, a.relation.parent)
    ensures Slot(d', a) == Shifted(Slot(d, a), IndexOf(d.flat, r)) <==>
      IsLineBreak(a.relation.value) || !Shielded(d, r, a.relation.parent, a.who)
  {
    if IsLineBreak(a.relation.value) {
      LiveStart(d, r, a.relation.parent);
    } else {
      ReachAfterLoss(d, d', r, IndexOf(d.flat, r), a.relation.parent, a.who);
    }
  }

  lemma AwayCommuteIff(d: Doc, a: Crdt, r: Ident)
    requires Race(d, a, r) && r != Home(d.chars, a.relation.parent)
    ensures Sound(Remove(d, r)) && a.relation.parent in Remove(d, r).chars
    ensures Inserted(Remove(d, r), a) == Remove(Inserted(d, a), r) <==>
      IsLineBreak(a.relation.value) || !Shielded(d, r, a.relation.parent, a.who)
  {
    RemoveLoses(d, r);
    RootReachStays(d, r, a.relation.parent);
    AwaySlotIff(d, Remove(d, r), a, r);
    SameSlotIff(d, a, r);
  }

  // ----- Removing the node that the newcomer is anchored to -----

  /** Nothing that hangs from below `r` is shown at index `i`. */
  ghost predicate NotUnder(chars: Chars, f: seq<Ident>, r: Ident, i: nat)
    requires Rooted(chars) && r in chars
  {
    i < |f| ==> f[i] in chars && !(Path(chars, r) < Path(chars, f[i]))
  }

  /** Every climb through `r` ends where the climb from `r` ends if nothing below `r` is shown there. */
  lemma {:induction false} ClimbEndsAt(chars: Chars, d: Doc, r: Ident, c: Ident, i: nat)
    requires WellFormed(d) && Rooted(chars) && Live(chars, r) && r != ROOT
    requires (d.chars == chars || d.chars == Tombstoned(chars, r))
    requires c in chars && Home(chars, c) == r && !ReachesRoot(d.chars, c)
    requires Start(d, r) == i && NotUnder(chars, d.flat, r, i)
    ensures Start(d, c) == i && Path(chars, r) <= Path(chars, c)
    decreases Ranks(chars)[c]
  {
    if chars[c].deleted {
      var q := chars[c].parent;
      ClimbIsScan(d, c);
      ClimbEndsAt(chars, d, r, q, i);
      NotUnderStops(chars, d, r, q, i, c);
    }
  }

  lemma NotUnderStops(chars: Chars, d: Doc, r: Ident, q: Ident, i: nat, x: Ident)
    requires Rooted(chars) && r in chars && r != ROOT && (d.chars == chars || d.chars == Tombstoned(chars, r))
    requires q in chars && Path(chars, r) <= Path(chars, q) && i <= |d.flat| && NotUnder(chars, d.flat, r, i)
    ensures Scan(d, i, q, x) == i
  {
    if i < |d.flat| {
      assert chars[d.flat[i]].parent != q by { NotChild(chars, r, q, d.flat[i]); }
    }
  }

  lemma NotChild(chars: Chars, r: Ident, q: Ident, y: Ident)
    requires Rooted(chars) && r in chars && r != ROOT && q in chars && Path(chars, r) <= Path(chars, q)
    requires y in chars && !(Path(chars, r) < Path(chars, y))
    ensures chars[y].parent != q
  {
    NotRoot(chars, r, q);
    if y != ROOT { ChildIsUnder(chars, r, y); }
  }

  lemma NotRoot(chars: Chars, r: Ident, q: Ident)
    requires Rooted(chars) && r in chars && r != ROOT && q in chars && Path(chars, r) <= Path(chars, q)
    ensures q != ROOT
  {
    var pr := Path(chars, r);
    assert Path(chars, ROOT) == [ROOT] && pr[0] == ROOT && pr[|pr| - 1] == r;
  }

  lemma ChildIsUnder(chars: Chars, r: Ident, y: Ident)
    requires Rooted(chars) && r in chars && y in chars && y != ROOT
    ensures chars[y].parent in chars
    ensures Path(chars, r) <= Path(chars, chars[y].parent) ==> Path(chars, r) < Path(chars, y)
  {
    AboveIsPathOfParent(chars, r, y);
  }

  /** What a climb walks past hangs from above the tombstone that it started from. */
  lemma {:induction false} WalkedPastHangs(d: Doc, c: Ident, k: nat)
    requires WellFormed(d) && c in d.chars && d.chars[c].deleted && !ReachesRoot(d.chars, c)
    requires IndexOf(d.flat, Home(d.chars, c)) < k < Start(d, c)
    ensures d.flat[k] in d.chars && !(Path(d.chars, c) < Path(d.chars, d.flat[k]))
    decreases Ranks(d.chars)[c]
  {
    var q, y := d.chars[c].parent, d.flat[k];
    assert y in d.flat && y != ROOT;
    AboveIsPathOfParent(d.chars, c, y);
    AboveIsPathOfParent(d.chars, q, c);
    ClimbIsScan(d, c);
    if k < Start(d, q) {
      WalkedPastHangs(d, q, k);
    }
  }

  /** `r` is the nearest live ancestor of `p`, about to be removed. */
  ghost predicate LosesHome(d: Doc, d': Doc, r: Ident, p: Ident) {
    Removable(d, r) && d' == Remove(d, r) && WellFormed(d') && p in d.chars && Home(d.chars, p) == r
  }

  lemma NextHome(chars: Chars, r: Ident, p: Ident)
    requires Rooted(chars) && p in chars && chars[p].deleted && Home(chars, p) == r && r != ROOT
    ensures chars[p].parent in chars && chars[p].parent != ROOT && Home(chars, chars[p].parent) == r
  {
    assert Home(chars, chars[p].parent) == r;
  }

  lemma {:induction false} HomeReachesRoot(d: Doc, d': Doc, r: Ident, p: Ident)
    requires LosesHome(d, d', r, p)
    ensures p in d'.chars && r in d'.chars && d'.chars == Tombstoned(d.chars, r)
    ensures ReachesRoot(d'.chars, p) <==> ReachesRoot(d'.chars, r)
    decreases Ranks(d.chars)[p]
  {
    if d.chars[p].deleted {
      NextHome(d.chars, r, p);
      HomeReachesRoot(d, d', r, d.chars[p].parent);
    }
  }

  /** A climb through `r` never ends in front of the climb from `r`. */
  lemma {:induction false} ClimbGoesOn(d: Doc, d': Doc, r: Ident, p: Ident)
    requires LosesHome(d, d', r, p) && p in d'.chars && r in d'.chars
    ensures Start(d', p) >= Start(d', r)
    decreases Ranks(d.chars)[p]
  {
    if d.chars[p].deleted {
      NextHome(d.chars, r, p);
      ClimbGoesOn(d, d', r, d.chars[p].parent);
    }
  }

  /** If the climb from `r` ends where `r` stood, every climb through `r` ends where it would have. */
  lemma {:induction false} ClimbFollows(d: Doc, d': Doc, r: Ident, p: Ident, j: nat)
    requires LosesHome(d, d', r, p) && p in d'.chars && r in d'.chars && j == IndexOf(d.flat, r) && Start(d', r) == j
    requires Loses(d, d', j)
    ensures Start(d, p) > j && Start(d', p) == Start(d, p) - 1
    decreases Ranks(d.chars)[p]
  {
    if d.chars[p].deleted {
      var q := d.chars[p].parent;
      NextHome(d.chars, r, p);
      ClimbFollows(d, d', r, q, j);
      FollowsLink(d, d', q, p, j);
    }
  }

  lemma FollowsLink(d: Doc, d': Doc, q: Ident, p: Ident, j: nat)
    requires Sound(d) && Sound(d') && Loses(d, d', j) && p in d.chars && p in d'.chars && q in d.chars
    requires q in d'.chars && q != ROOT
    requires d.chars[p].deleted && d'.chars[p].deleted && d.chars[p].parent == d'.chars[p].parent == q
    requires Start(d, q) > j && Start(d', q) == Start(d, q) - 1
    ensures Start(d, p) > j && Start(d', p) == Start(d, p) - 1
  {
    ScanBehindLoss(d, d', j, Start(d, q), q, p);
  }

  /** The climb from `r` ends too early. */
  lemma EndsEarly(d: Doc, d': Doc, r: Ident, a: Crdt, j: nat)
    requires LosesHome(d, d', r, a.relation.parent) && a.relation.parent in d'.chars && r in d'.chars
    requires j == IndexOf(d.flat, r)
    requires Loses(d, d', j) && !ReachesRoot(d'.chars, a.relation.parent) && Start(d', r) < j
    requires !IsLineBreak(a.relation.value)
    ensures Slot(d', a) < j
  {
    var u, p := Start(d', r), a.relation.parent;
    assert NotBelow(d.chars)(d.flat[u], d.flat[j]);
    assert d.flat[u] in d.flat && d'.flat[u] == d.flat[u];
    assert NotUnder(d.chars, d'.flat, r, u);
    HomeReachesRoot(d, d', r, p);
    ClimbEndsAt(d.chars, d', r, p, u);
    NotUnderStops(d.chars, d', r, p, u, a.who);
  }

  /** The climb from `r` ends too late: what stood behind `r` hangs from above `r`. */
  lemma EndsLate(d: Doc, d': Doc, r: Ident, a: Crdt, j: nat)
    requires LosesHome(d, d', r, a.relation.parent) && a.relation.parent in d'.chars && r in d'.chars
    requires j == IndexOf(d.flat, r)
    requires Loses(d, d', j) && !ReachesRoot(d'.chars, r) && Start(d', r) > j && !IsLineBreak(a.relation.value)
    requires !ReachesRoot(d.chars, a.relation.parent)
    ensures Slot(d, a) == j + 1 && Slot(d', a) > j
  {
    var p := a.relation.parent;
    BehindHangs(d, d', r, j);
    ClimbEndsAt(d.chars, d, r, p, j + 1);
    NotUnderStops(d.chars, d, r, p, j + 1, a.who);
    ClimbGoesOn(d, d', r, p);
  }

  lemma BehindHangs(d: Doc, d': Doc, r: Ident, j: nat)
    requires LosesHome(d, d', r, r) && r in d'.chars && j == IndexOf(d.flat, r)
    requires Loses(d, d', j) && !ReachesRoot(d'.chars, r) && Start(d', r) > j
    ensures NotUnder(d.chars, d.flat, r, j + 1)
  {
    HomeReachesRoot(d, d', r, r);
    NewHome(d, d', r, j);
    WalkedPastHangs(d', r, j);
    assert d'.flat[j] == d.flat[j + 1];
    PathsFrame(d.chars, d'.chars);
  }

  lemma NewHome(d: Doc, d': Doc, r: Ident, j: nat)
    requires LosesHome(d, d', r, r) && r in d'.chars && d'.chars == Tombstoned(d.chars, r) && j == IndexOf(d.flat, r)
    ensures IndexOf(d'.flat, Home(d'.chars, r)) < j
  {
    var h := Home(d'.chars, r);
    HomeIsNearest(d'.chars, r);
    PathsFrame(d.chars, d'.chars);
    assert h != r && Above(d.chars, h, r);
    LeadAt(d, j, IndexOf(d.flat, h));
    IndexAfterErase(d.flat, r, h);
  }

  lemma HomeSlotIff(d: Doc, d': Doc, a: Crdt, r: Ident, j: nat)
    requires LosesHome(d, d', r, a.relation.parent) && a.relation.parent in d'.chars && r in d'.chars
    requires j == IndexOf(d.flat, r)
    requires Loses(d, d', j) && !ReachesRoot(d.chars, a.relation.parent) && !ReachesRoot(d'.chars, a.relation.parent)
    requires !IsLineBreak(a.relation.value) && Slot(d, a) > j
    ensures Slot(d', a) == Shifted(Slot(d, a), j) <==> Start(d', r) == j
  {
    var p := a.relation.parent;
    if Start(d', r) < j {
      EndsEarly(d, d', r, a, j);
    } else if Start(d', r) > j {
      HomeReachesRoot(d, d', r, p);
      EndsLate(d, d', r, a, j);
    } else {
      FollowsSlot(d, d', r, a, j);
    }
  }

  lemma FollowsSlot(d: Doc, d': Doc, r: Ident, a: Crdt, j: nat)
    requires LosesHome(d, d', r, a.relation.parent) && a.relation.parent in d'.chars && r in d'.chars
    requires j == IndexOf(d.flat, r)
    requires Loses(d, d', j) && Start(d', r) == j && !IsLineBreak(a.relation.value)
    ensures Slot(d, a) > j && Slot(d', a) == Slot(d, a) - 1
  {
    var p := a.relation.parent;
    ClimbFollows(d, d', r, p, j);
    ScanBehindLoss(d, d', j, Start(d, p), p, a.who);
  }

  lemma HomeCommuteIff(d: Doc, a: Crdt, r: Ident)
    requires Race(d, a, r) && r == Home(d.chars, a.relation.parent)
    ensures Sound(Remove(d, r)) && a.relation.parent in Remove(d, r).chars && r in Remove(d, r).chars
    ensures Inserted(Remove(d, r), a) == Remove(Inserted(d, a), r) <==>
      !IsLineBreak(a.relation.value) && Start(Remove(d, r), r) == IndexOf(d.flat, r)
  {
    var d' := Remove(d, r);
    RemoveLoses(d, r);
    HomeReachesRoot(d, d', r, a.relation.parent);
    if Anchored(d'.chars, a) {
      AnchoredSlot(d, a);
      LineBreakParentDies(d, d', a, r);
      HomeSlotIff(d, d', a, r, IndexOf(d.flat, r));
      SameSlotIff(d, a, r);
    } else {
      UnanchoredAfterRemove(d, a, r);
      if !IsLineBreak(a.relation.value) { StartFollowsHome(d', r); }
    }
  }

  lemma LineBreakParentDies(d: Doc, d': Doc, a: Crdt, r: Ident)
    requires LosesHome(d, d', r, a.relation.parent) && a.relation.parent in d'.chars
    requires d'.chars == Tombstoned(d.chars, r)
    requires Anchored(d.chars, a) && Anchored(d'.chars, a)
    ensures !IsLineBreak(a.relation.value) && !ReachesRoot(d.chars, a.relation.parent)
    ensures !ReachesRoot(d'.chars, a.relation.parent)
  {}

  /** One order stays well-formed and the other does not. */
  lemma UnanchoredAfterRemove(d: Doc, a: Crdt, r: Ident)
    requires Race(d, a, r) && WellFormed(Remove(d, r)) && a.relation.parent in Remove(d, r).chars
    requires !Anchored(Remove(d, r).chars, a)
    ensures Inserted(Remove(d, r), a) != Remove(Inserted(d, a), r)
  {
    AddKeepsWellFormedIff(Remove(d, r), a);
    AnchoredAddKeepsWellFormed(d, a);
    RemoveKeepsWellFormed(Inserted(d, a), r);
  }

  // ----- The theorem -----

  /** The insert of an anchored character commutes with the remove of another exactly when, if the
      other is what it is anchored to, a climb from there comes back to the same place, and if not,
      the other does not shield the newcomer or its tombstones from an elder sibling behind it. */
  lemma InsertRemoveCommuteIff(d: Doc, a: Crdt, r: Ident)
    requires Race(d, a, r)
    ensures Sound(Remove(d, r)) && a.relation.parent in Remove(d, r).chars && r in Remove(d, r).chars
    ensures Inserted(Remove(d, r), a) == Remove(Inserted(d, a), r) <==>
      if r == Home(d.chars, a.relation.parent)
      then !IsLineBreak(a.relation.value) && Start(Remove(d, r), r) == IndexOf(d.flat, r)
      else IsLineBreak(a.relation.value) || !Shielded(d, r, a.relation.parent, a.who)
  {
    RemoveLoses(d, r);
    if r == Home(d.chars, a.relation.parent) { HomeCommuteIff(d, a, r); } else { AwayCommuteIff(d, a, r); }
  }

  /** Under a live parent: the two commute unless what is removed stands right where the newcomer
      goes, with an elder sibling of the newcomer behind it. */
  lemma LiveParentCommuteIff(d: Doc, a: Crdt, r: Ident)
    requires Race(d, a, r) && Live(d.chars, a.relation.parent) && r != a.relation.parent
    ensures Sound(Remove(d, r)) && a.relation.parent in Remove(d, r).chars
    ensures var s := Slot(d, a);
      Inserted(Remove(d, r), a) == Remove(Inserted(d, a), r) <==>
      !(!IsLineBreak(a.relation.value) && s + 1 < |d.flat| && d.flat[s] == r &&
        Skips(d.chars, d.flat[s + 1], a.relation.parent, a.who))
  {
    InsertRemoveCommuteIff(d, a, r);
  }

  // ----- Taking back -----

  /** Removing what was just inserted gives the list back and leaves a tombstone. */
  lemma RemoveTakesBack(d: Doc, a: Crdt)
    requires WellFormed(d) && Lands(d.chars, a) && Anchored(d.chars, a)
    ensures Remove(Inserted(d, a), a.who) == Doc(d.chars[a.who := a.relation.(deleted := true)], d.flat)
  {
    var d' := Inserted(d, a);
    assert d'.flat == InsertAt(d.flat, Slot(d, a), a.who) by { AnchoredAddKeepsWellFormed(d, a); }
    assert Erase(d'.flat, a.who) == d.flat by { EraseInserted(d.flat, Slot(d, a), a.who); }
    assert Tombstoned(d'.chars, a.who) == d.chars[a.who := a.relation.(deleted := true)];
    assert a.who != ROOT;
  }
}
