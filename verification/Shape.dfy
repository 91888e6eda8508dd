/** Well-formedness over whole runs: which adds keep it, and that removes always do. */
module Shape {
  import opened Types
  import opened CharTree
  import opened Lists
  import opened Document

  // ----- Inserts -----

  lemma NewPath(d: Doc, crdt: Crdt)
    requires Sound(d) && Lands(d.chars, crdt)
    ensures var chars' := Inserted(d, crdt).chars;
      Rooted(chars') && Path(chars', crdt.who) == Path(d.chars, crdt.relation.parent) + [crdt.who] &&
      forall y :: y in d.chars ==> Path(chars', y) == Path(d.chars, y)
  {
    RootedAfterAdd(d.chars, crdt.who, crdt.relation);
    PathsFrame(d.chars, Inserted(d, crdt).chars);
  }

  /** The new node is a leaf, and the recorded nodes above it are its parent and those above the parent. */
  lemma NewNodeIsLeaf(d: Doc, crdt: Crdt, y: Ident)
    requires Sound(d) && Lands(d.chars, crdt) && y in d.chars
    ensures Rooted(Inserted(d, crdt).chars)
    ensures !Above(Inserted(d, crdt).chars, crdt.who, y)
    ensures Above(Inserted(d, crdt).chars, y, crdt.who) <==> Path(d.chars, y) <= Path(d.chars, crdt.relation.parent)
  {
    NewPath(d, crdt);
    var chars' := Inserted(d, crdt).chars;
    if Above(chars', crdt.who, y) {
      assert Path(chars', crdt.who)[|Path(chars', crdt.who)| - 1] in Path(chars', y);
      PathNodes(d.chars, y, crdt.who);
      assert false;
    }
    AboveIsPathOfParent(chars', y, crdt.who);
  }

  lemma AnchoredSlot(d: Doc, crdt: Crdt)
    requires WellFormed(d) && Lands(d.chars, crdt) && Anchored(d.chars, crdt)
    ensures IndexOf(d.flat, Home(d.chars, crdt.relation.parent)) < Slot(d, crdt)
  {
    StartFollowsHome(d, crdt.relation.parent);
  }

  /** What is not above the newcomer's nearest live ancestor is not above the newcomer. */
  lemma NotAboveNewcomer(d: Doc, crdt: Crdt, y: Ident)
    requires Sound(d) && Lands(d.chars, crdt) && Live(d.chars, y)
    requires y != Home(d.chars, crdt.relation.parent) && !Above(d.chars, y, Home(d.chars, crdt.relation.parent))
    ensures Rooted(Inserted(d, crdt).chars) && !Above(Inserted(d, crdt).chars, y, crdt.who)
  {
    var h, p := Home(d.chars, crdt.relation.parent), crdt.relation.parent;
    NewNodeIsLeaf(d, crdt, y);
    HomeIsNearest(d.chars, p);
    assert Path(d.chars, y) != Path(d.chars, h) by {
      assert Path(d.chars, y)[|Path(d.chars, y)| - 1] == y && Path(d.chars, h)[|Path(d.chars, h)| - 1] == h;
    }
  }

  /** Nothing above an anchored newcomer is shown behind its slot. */
  lemma AncestorsInFront(d: Doc, crdt: Crdt, k: nat)
    requires WellFormed(d) && Lands(d.chars, crdt) && Anchored(d.chars, crdt)
    requires Slot(d, crdt) <= k < |d.flat|
    ensures Rooted(Inserted(d, crdt).chars) && d.flat[k] in d.chars
    ensures !Above(Inserted(d, crdt).chars, d.flat[k], crdt.who)
  {
    var h := Home(d.chars, crdt.relation.parent);
    AnchoredSlot(d, crdt);
    LeadAt(d, IndexOf(d.flat, h), k);
    IndexUnique(d.flat, k);
    assert d.flat[k] in d.flat;
    NotAboveNewcomer(d, crdt, d.flat[k]);
  }

  lemma AnchoredAddKeepsWellFormed(d: Doc, crdt: Crdt)
    requires WellFormed(d) && Lands(d.chars, crdt) && Anchored(d.chars, crdt)
    ensures WellFormed(Inserted(d, crdt))
    ensures Inserted(d, crdt).flat == InsertAt(d.flat, Slot(d, crdt), crdt.who)
  {
    var d', s, x := Inserted(d, crdt), Slot(d, crdt), crdt.who;
    assert Rooted(d'.chars) by { NewPath(d, crdt); }
    assert d'.flat[0] == ROOT by { AnchoredSlot(d, crdt); }
    assert Distinct(d'.flat) by { DistinctInsert(d.flat, s, x); }
    assert Pairwise(d'.flat, NotBelow(d'.chars)) by {
      LeadFrame(d, d'.chars);
      NewcomerFits(d, crdt);
      PairwiseInsert(d.flat, s, x, NotBelow(d'.chars));
    }
  }

  lemma NewcomerFits(d: Doc, crdt: Crdt)
    requires WellFormed(d) && Lands(d.chars, crdt) && Anchored(d.chars, crdt)
    ensures Rooted(Inserted(d, crdt).chars)
    ensures var r, s := NotBelow(Inserted(d, crdt).chars), Slot(d, crdt);
      (forall k :: 0 <= k < s ==> r(d.flat[k], crdt.who)) && (forall k :: s <= k < |d.flat| ==> r(crdt.who, d.flat[k]))
  {
    NewPath(d, crdt);
    var r, s := NotBelow(Inserted(d, crdt).chars), Slot(d, crdt);
    forall k | 0 <= k < s ensures r(d.flat[k], crdt.who) {
      assert d.flat[k] in d.flat;
      NewNodeIsLeaf(d, crdt, d.flat[k]);
    }
    forall k | s <= k < |d.flat| ensures r(crdt.who, d.flat[k]) { AncestorsInFront(d, crdt, k); }
  }

  /** Nothing is shown in front of what it hangs from. */
  lemma LeadAt(d: Doc, i: nat, k: nat)
    requires WellFormed(d) && i < |d.flat| && k < |d.flat|
    ensures d.flat[i] in d.chars && d.flat[k] in d.chars && (i < k ==> !Above(d.chars, d.flat[k], d.flat[i]))
  {
    assert d.flat[i] in d.flat && d.flat[k] in d.flat;
    assert i < k ==> NotBelow(d.chars)(d.flat[i], d.flat[k]);
  }

  lemma LeadFrame(d: Doc, chars': Chars)
    requires WellFormed(d) && Rooted(chars') && Grows(d.chars, chars')
    ensures Pairwise(d.flat, NotBelow(chars'))
  {
    PathsFrame(d.chars, chars');
    forall i, j | 0 <= i < j < |d.flat| ensures NotBelow(chars')(d.flat[i], d.flat[j]) {
      assert d.flat[i] in d.flat && d.flat[j] in d.flat;
      assert NotBelow(d.chars)(d.flat[i], d.flat[j]);
    }
  }

  lemma {:induction false} RowStartReachesBack(d: Doc, h: nat, pos: nat)
    requires h < pos <= |d.flat|
    requires forall i :: h < i < pos ==> !Breaks(d.chars, d.flat[i])
    ensures RowStart(d, pos) <= h
    decreases pos
  {
    if pos > 1 && pos - 1 > h { RowStartReachesBack(d, h, pos - 1); }
  }

  lemma UnanchoredAddBreaksWellFormed(d: Doc, crdt: Crdt)
    requires WellFormed(d) && Lands(d.chars, crdt) && !Anchored(d.chars, crdt)
    ensures !WellFormed(Inserted(d, crdt))
  {
    var d', s, x, p := Inserted(d, crdt), Slot(d, crdt), crdt.who, crdt.relation.parent;
    StartFollowsHome(d, p);
    if crdt.relation.deleted {
      assert x in d'.flat && !Live(d'.chars, x);
    } else if ReachesRoot(d.chars, p) {
      assert Start(d, p) == 0;
      assert s == 0 by { assert !Skips(d.chars, ROOT, p, x); }
      assert d'.flat[0] == x;
    } else {
      DisplacedHidesHome(d, crdt);
    }
  }

  /** In a displaced row the head follows the newcomer. */
  lemma DisplacedAt(d: Doc, s: nat, x: Ident, h: nat, rs: nat, i: nat)
    requires s <= |d.flat| && rs == RowStart(d, s) <= h < s && i == rs + 1 + (RowEnd(d, s) - s) + (h - rs)
    ensures i < |Displaced(d, s, x)| && Displaced(d, s, x)[rs] == x && Displaced(d, s, x)[i] == d.flat[h]
  {
    var re := RowEnd(d, s);
    assert (d.flat[..rs] + [x] + d.flat[s..re] + d.flat[rs..s])[i] == d.flat[rs..s][h - rs];
  }

  lemma DisplacedHidesHome(d: Doc, crdt: Crdt)
    requires WellFormed(d) && Lands(d.chars, crdt) && !ReachesRoot(d.chars, crdt.relation.parent)
    requires IsLineBreak(crdt.relation.value) && d.chars[crdt.relation.parent].deleted
    ensures !WellFormed(Inserted(d, crdt))
  {
    var d', s, x, p := Inserted(d, crdt), Slot(d, crdt), crdt.who, crdt.relation.parent;
    var home := Home(d.chars, p);
    StartFollowsHome(d, p);
    var h, rs := IndexOf(d.flat, home), RowStart(d, s);
    RowStartReachesBack(d, h, s);
    var i := rs + 1 + (RowEnd(d, s) - s) + (h - rs);
    DisplacedAt(d, s, x, h, rs, i);
    assert d'.flat[rs] == x && d'.flat[i] == home;
    HomeIsNearest(d.chars, p);
    NewNodeIsLeaf(d, crdt, home);
    assert !NotBelow(d'.chars)(d'.flat[rs], d'.flat[i]);
  }

  /** Exactly the anchored adds keep a document well-formed. */
  lemma AddKeepsWellFormedIff(d: Doc, crdt: Crdt)
    requires WellFormed(d)
    ensures Sound(d)
    ensures WellFormed(Add(d, crdt)) <==> (Lands(d.chars, crdt) ==> Anchored(d.chars, crdt))
  {
    if Lands(d.chars, crdt) {
      if Anchored(d.chars, crdt) {
        AnchoredAddKeepsWellFormed(d, crdt);
      } else {
        UnanchoredAddBreaksWellFormed(d, crdt);
      }
    }
  }

  // ----- Removes -----

  lemma RemoveKeepsWellFormed(d: Doc, x: Ident)
    requires WellFormed(d)
    ensures WellFormed(Remove(d, x))
  {
    if x != ROOT && Live(d.chars, x) {
      var d' := Remove(d, x);
      RootedAfterTombstone(d.chars, x);
      LeadFrame(d, d'.chars);
      PairwiseErase(d.flat, x, NotBelow(d'.chars));
      DistinctErase(d.flat, x);
      assert d'.flat[0] == ROOT;
    }
  }

  // ----- Runs -----

  datatype Op = Insert(crdt: Crdt) | Delete(who: Ident)

  ghost function Step(d: Doc, op: Op): (d': Doc)
    requires Sound(d)
    ensures Sound(d')
  {
    match op
    case Insert(crdt) => AddKeepsSound(d, crdt); Add(d, crdt)
    case Delete(who) => RemoveKeepsSound(d, who); Remove(d, who)
  }

  ghost function Run(d: Doc, ops: seq<Op>): (d': Doc)
    requires Sound(d)
    ensures Sound(d')
    decreases |ops|
  {
    if ops == [] then d else Run(Step(d, ops[0]), ops[1..])
  }

  ghost predicate RunAnchored(d: Doc, ops: seq<Op>)
    requires Sound(d)
    decreases |ops|
  {
    ops == [] || (StepAnchored(d, ops[0]) && RunAnchored(Step(d, ops[0]), ops[1..]))
  }

  ghost predicate StepAnchored(d: Doc, op: Op)
    requires Sound(d)
  {
    op.Insert? && Lands(d.chars, op.crdt) ==> Anchored(d.chars, op.crdt)
  }

  lemma StepKeepsWellFormed(d: Doc, op: Op)
    requires WellFormed(d) && StepAnchored(d, op)
    ensures WellFormed(Step(d, op))
    ensures forall x, y :: Ahead(d.flat, x, y) && x in Step(d, op).flat && y in Step(d, op).flat ==>
      Ahead(Step(d, op).flat, x, y)
    ensures forall x :: x in d.chars && Live(Step(d, op).chars, x) ==> Live(d.chars, x)
  {
    match op
    case Insert(crdt) =>
      AddKeepsWellFormedIff(d, crdt);
      if Lands(d.chars, crdt) {
        AnchoredAddKeepsWellFormed(d, crdt);
        forall x, y | Ahead(d.flat, x, y) ensures Ahead(Step(d, op).flat, x, y) {
          AheadAfterInsert(d.flat, Slot(d, crdt), crdt.who, x, y);
        }
      }
    case Delete(who) =>
      RemoveKeepsWellFormed(d, who);
      forall x, y | Ahead(d.flat, x, y) && x in Step(d, op).flat && y in Step(d, op).flat
        ensures Ahead(Step(d, op).flat, x, y)
      {
        if who != ROOT && Live(d.chars, who) { AheadAfterErase(d.flat, who, x, y); }
      }
  }

  /** Every run of anchored adds and any removes keeps a document well-formed. Characters that
      survive the run keep their order, and nothing that was removed comes back. */
  lemma {:induction false} RunKeepsWellFormed(d: Doc, ops: seq<Op>)
    requires WellFormed(d) && RunAnchored(d, ops)
    ensures WellFormed(Run(d, ops))
    ensures forall x, y :: Ahead(d.flat, x, y) && x in Run(d, ops).flat && y in Run(d, ops).flat ==>
      Ahead(Run(d, ops).flat, x, y)
    ensures forall x :: x in d.chars && Live(Run(d, ops).chars, x) ==> Live(d.chars, x)
    ensures forall x :: x in d.chars ==> x in Run(d, ops).chars
    decreases |ops|
  {
    if ops != [] {
      StepKeepsWellFormed(d, ops[0]);
      RunKeepsWellFormed(Step(d, ops[0]), ops[1..]);
    }
  }
}
