/** The list against the tree it is derived from: a document is faithful when it lists the live
    nodes in the order of a preorder walk, siblings in outranking order. Exactly the adds that
    land in place keep a document faithful, so replicas that hold the same tree agree. */
module TreeOrder {
  import opened Types
  import opened CharTree
  import opened Lists
  import opened Document
  import opened Shape

  ghost function InOrder(chars: Chars): (Ident, Ident) -> bool
    requires Rooted(chars)
  {
    (a, b) => a in chars && b in chars && Before(chars, a, b)
  }

  ghost predicate Faithful(d: Doc) {
    Rooted(d.chars) && (forall x :: x in d.flat <==> Live(d.chars, x)) && Pairwise(d.flat, InOrder(d.chars))
  }

  lemma FaithfulIsWellFormed(d: Doc)
    requires Faithful(d)
    ensures WellFormed(d)
  {
    forall i, j | 0 <= i < j < |d.flat| ensures d.flat[i] != d.flat[j] && NotBelow(d.chars)(d.flat[i], d.flat[j]) {
      var a, b := d.flat[i], d.flat[j];
      assert InOrder(d.chars)(a, b);
      PrecedesStrict(Path(d.chars, a), Path(d.chars, b));
      if Above(d.chars, b, a) { PrefixPrecedes(Path(d.chars, b), Path(d.chars, a)); }
    }
    assert ROOT in d.flat;
    OrderOfIndices(d, 0, IndexOf(d.flat, ROOT));
  }

  lemma OrderOfIndices(d: Doc, i: nat, j: nat)
    requires Faithful(d) && i <= j < |d.flat|
    ensures d.flat[i] in d.chars && d.flat[j] in d.chars
    ensures i == j || Before(d.chars, d.flat[i], d.flat[j])
  {
    assert d.flat[i] in d.flat && d.flat[j] in d.flat;
    assert i < j ==> InOrder(d.chars)(d.flat[i], d.flat[j]);
  }

  lemma IndicesOfOrder(d: Doc, x: Ident, y: Ident)
    requires Faithful(d) && x in d.flat && y in d.flat && Rooted(d.chars)
    requires x in d.chars && y in d.chars && Before(d.chars, x, y)
    ensures IndexOf(d.flat, x) < IndexOf(d.flat, y)
  {
    var i, j := IndexOf(d.flat, x), IndexOf(d.flat, y);
    PrecedesStrict(Path(d.chars, x), Path(d.chars, y));
    OrderOfIndices(d, if i < j then i else j, if i < j then j else i);
  }

  // ----- Crowding -----

  /** The live node `y` belongs between the nearest live ancestor-or-self of `p` and a child `x` of `p`. */
  ghost predicate Crowds(chars: Chars, y: Ident, p: Ident, x: Ident)
    requires Rooted(chars) && p in chars
  {
    Live(chars, y) && Path(chars, Home(chars, p)) < Path(chars, y) && Precedes(Path(chars, y), Path(chars, p) + [x])
  }

  /** An ordinary character hanging directly from `p` or from a node above `p`. */
  ghost predicate Plain(chars: Chars, y: Ident, p: Ident)
    requires Rooted(chars) && y in chars && p in chars
  {
    y != ROOT && Path(chars, chars[y].parent) <= Path(chars, p) && !Breaks(chars, y)
  }

  /** The scan of an add finds the newcomer's place in the tree order: the newcomer is anchored, only
      ordinary characters that hang from its own ancestors belong between its nearest live
      ancestor and it, and if it is a line break, nothing does. */
  ghost predicate InPlace(chars: Chars, crdt: Crdt)
    requires Rooted(chars) && crdt.relation.parent in chars
  {
    var p := crdt.relation.parent;
    Anchored(chars, crdt) &&
    forall y :: Crowds(chars, y, p, crdt.who) ==> Plain(chars, y, p) && !IsLineBreak(crdt.relation.value)
  }

  ghost function Reach(d: Doc, p: Ident, x: Ident): (r: nat)
    requires Sound(d) && p in d.chars
    ensures r <= |d.flat|
  {
    Scan(d, Start(d, p), p, x)
  }

  lemma ClimbIsScan(d: Doc, c: Ident)
    requires WellFormed(d) && c in d.chars && d.chars[c].deleted && !ReachesRoot(d.chars, c)
    ensures var p := d.chars[c].parent; p in d.chars && !ReachesRoot(d.chars, p) && Start(d, c) == Reach(d, p, c)
  {
    var p := d.chars[c].parent;
    if p == ROOT {
      assert IndexOf(d.flat, ROOT) == 0;
      assert Skips(d.chars, d.flat[0], ROOT, c);
      assert Scan(d, 0, ROOT, c) == Scan(d, 1, ROOT, c);
    }
  }

  lemma SkippedIsElder(d: Doc, p: Ident, x: Ident, y: Ident)
    requires WellFormed(d) && p in d.chars && Skips(d.chars, y, p, x) && y != ROOT
    ensures Precedes(Path(d.chars, y), Path(d.chars, p) + [x]) && Plain(d.chars, y, p)
  {
    PrecedesCommon(Path(d.chars, p), [y], [x]);
  }

  /** Everything in front of the place that the scan finds belongs there. */
  lemma {:induction false} Passed(d: Doc, p: Ident, x: Ident, k: nat)
    requires Faithful(d) && p in d.chars && !ReachesRoot(d.chars, p)
    requires Sound(d) && k < Reach(d, p, x)
    ensures WellFormed(d) && d.flat[k] in d.chars
    ensures Precedes(Path(d.chars, d.flat[k]), Path(d.chars, p) + [x])
    ensures k > IndexOf(d.flat, Home(d.chars, p)) ==> Plain(d.chars, d.flat[k], p)
    decreases Ranks(d.chars)[p]
  {
    FaithfulIsWellFormed(d);
    var y := d.flat[k];
    assert y in d.flat;
    PrefixPrecedes(Path(d.chars, p), Path(d.chars, p) + [x]);
    if k < Start(d, p) {
      if !d.chars[p].deleted {
        if y != p {
          assert InOrder(d.chars)(y, p);
          PrecedesTransitive(Path(d.chars, y), Path(d.chars, p), Path(d.chars, p) + [x]);
        }
      } else {
        ClimbIsScan(d, p);
        Passed(d, d.chars[p].parent, p, k);
        PrecedesTransitive(Path(d.chars, y), Path(d.chars, p), Path(d.chars, p) + [x]);
      }
    } else {
      StartFollowsHome(d, p);
      assert y != ROOT;
      SkippedIsElder(d, p, x, y);
    }
  }

  /** A live descendant of `p` that is plain and belongs before `x` would have been skipped. */
  lemma PlainIsSkipped(d: Doc, p: Ident, x: Ident, y: Ident)
    requires WellFormed(d) && p in d.chars && y in d.chars && x != y
    requires Path(d.chars, p) < Path(d.chars, y) && Plain(d.chars, y, p)
    requires Precedes(Path(d.chars, y), Path(d.chars, p) + [x])
    ensures Skips(d.chars, y, p, x)
  {
    AboveIsPathOfParent(d.chars, p, y);
    var q := d.chars[y].parent;
    assert Path(d.chars, q) == Path(d.chars, p);
    assert q == p;
    PrecedesCommon(Path(d.chars, p), [y], [x]);
  }

  /** When only plain nodes crowd `x`, nothing behind the place that the scan finds belongs before `x`. */
  lemma {:induction false} Stops(d: Doc, p: Ident, x: Ident)
    requires Faithful(d) && Sound(d) && p in d.chars && !ReachesRoot(d.chars, p) && !Live(d.chars, x)
    requires forall y :: Crowds(d.chars, y, p, x) ==> Plain(d.chars, y, p)
    ensures forall k :: Reach(d, p, x) <= k < |d.flat| ==>
      d.flat[k] in d.chars && !Precedes(Path(d.chars, d.flat[k]), Path(d.chars, p) + [x])
    decreases Ranks(d.chars)[p]
  {
    FaithfulIsWellFormed(d);
    var r, px := Reach(d, p, x), Path(d.chars, p) + [x];
    forall k | r <= k < |d.flat| ensures d.flat[k] in d.chars && !Precedes(Path(d.chars, d.flat[k]), px) {
      assert d.flat[k] in d.flat && d.flat[r] in d.flat;
      if Precedes(Path(d.chars, d.flat[k]), px) {
        var y := d.flat[r];
        if k != r {
          assert InOrder(d.chars)(y, d.flat[k]);
          PrecedesTransitive(Path(d.chars, y), Path(d.chars, d.flat[k]), px);
        }
        StopIsBelow(d, p, x);
        PlainIsSkipped(d, p, x, y);
        assert false;
      }
    }
  }

  lemma {:induction false} StopIsBelow(d: Doc, p: Ident, x: Ident)
    requires WellFormed(d) && Faithful(d) && p in d.chars && !ReachesRoot(d.chars, p) && !Live(d.chars, x)
    requires forall y :: Crowds(d.chars, y, p, x) ==> Plain(d.chars, y, p)
    requires Reach(d, p, x) < |d.flat|
    requires d.flat[Reach(d, p, x)] in d.chars
    requires Precedes(Path(d.chars, d.flat[Reach(d, p, x)]), Path(d.chars, p) + [x])
    ensures var y := d.flat[Reach(d, p, x)]; Path(d.chars, p) < Path(d.chars, y) && Plain(d.chars, y, p)
    decreases Ranks(d.chars)[p], 0
  {
    var r, px, home := Reach(d, p, x), Path(d.chars, p) + [x], Home(d.chars, p);
    var y := d.flat[r];
    StartFollowsHome(d, p);
    HomeIsNearest(d.chars, p);
    assert y in d.flat && InOrder(d.chars)(home, y);
    Sandwich(Path(d.chars, home), Path(d.chars, y), px);
    assert Crowds(d.chars, y, p, x);
    if d.chars[p].deleted {
      ClimbIsScan(d, p);
      var q := d.chars[p].parent;
      forall z | Crowds(d.chars, z, q, p) ensures Plain(d.chars, z, q) { CrowdsAbove(d, z, p, x); }
      Stops(d, q, p);
      PrecedesStrict(Path(d.chars, p), Path(d.chars, y));
      assert y != p;
      Sandwich(Path(d.chars, p), Path(d.chars, y), px);
    }
  }

  /** What crowds a tombstone crowds its children, and if it is plain for them it is plain for it. */
  lemma CrowdsAbove(d: Doc, z: Ident, p: Ident, x: Ident)
    requires WellFormed(d) && p in d.chars && d.chars[p].deleted
    requires Crowds(d.chars, z, d.chars[p].parent, p)
    requires forall y :: Crowds(d.chars, y, p, x) ==> Plain(d.chars, y, p)
    ensures Plain(d.chars, z, d.chars[p].parent)
  {
    var pp, pz := Path(d.chars, p), Path(d.chars, z);
    PrefixPrecedes(pp, pp + [x]);
    PrecedesTransitive(pz, pp, pp + [x]);
    assert Crowds(d.chars, z, p, x);
    PrecedesStrict(pp, pz);
    var q := d.chars[z].parent;
    AboveIsPathOfParent(d.chars, p, z);
    if Path(d.chars, q) == pp {
      assert q == p;
      PrefixPrecedes(pp, pz);
    }
  }

  // ----- The theorem -----

  lemma OrderFrame(d: Doc, chars': Chars)
    requires Faithful(d) && Rooted(chars') && Grows(d.chars, chars')
    ensures Pairwise(d.flat, InOrder(chars'))
  {
    PathsFrame(d.chars, chars');
    forall i, j | 0 <= i < j < |d.flat| ensures InOrder(chars')(d.flat[i], d.flat[j]) {
      assert InOrder(d.chars)(d.flat[i], d.flat[j]);
    }
  }

  lemma InPlaceAddIsFaithful(d: Doc, crdt: Crdt)
    requires Faithful(d) && Sound(d) && Lands(d.chars, crdt) && InPlace(d.chars, crdt)
    ensures Faithful(Inserted(d, crdt))
  {
    FaithfulIsWellFormed(d);
    AnchoredAddKeepsWellFormed(d, crdt);
    var d', s, x := Inserted(d, crdt), Slot(d, crdt), crdt.who;
    var r := InOrder(d'.chars);
    forall k | 0 <= k < |d.flat| ensures if k < s then r(d.flat[k], x) else r(x, d.flat[k]) {
      NewcomerInOrder(d, crdt, k);
    }
    OrderFrame(d, d'.chars);
    PairwiseInsert(d.flat, s, x, r);
  }

  lemma NewcomerInOrder(d: Doc, crdt: Crdt, k: nat)
    requires Faithful(d) && Sound(d) && Lands(d.chars, crdt) && InPlace(d.chars, crdt) && k < |d.flat|
    ensures Rooted(Inserted(d, crdt).chars)
    ensures var r := InOrder(Inserted(d, crdt).chars);
      if k < Slot(d, crdt) then r(d.flat[k], crdt.who) else r(crdt.who, d.flat[k])
  {
    FaithfulIsWellFormed(d);
    NewPath(d, crdt);
    var x, p, y := crdt.who, crdt.relation.parent, d.flat[k];
    assert y in d.flat;
    if k < Slot(d, crdt) {
      Passed(d, p, x, k);
    } else {
      PrecedesStrict(Path(d.chars, p) + [x], Path(d.chars, y));
      if IsLineBreak(crdt.relation.value) { NothingCrowdsBreak(d, crdt, k); } else { Stops(d, p, x); }
    }
  }

  lemma NothingCrowdsBreak(d: Doc, crdt: Crdt, k: nat)
    requires Faithful(d) && WellFormed(d) && Lands(d.chars, crdt) && InPlace(d.chars, crdt)
    requires IsLineBreak(crdt.relation.value) && Slot(d, crdt) <= k < |d.flat|
    ensures d.flat[k] in d.chars
    ensures !Precedes(Path(d.chars, d.flat[k]), Path(d.chars, crdt.relation.parent) + [crdt.who])
  {
    var p, y := crdt.relation.parent, d.flat[k];
    var py, px := Path(d.chars, y), Path(d.chars, p) + [crdt.who];
    assert y in d.flat && InOrder(d.chars)(p, y);
    assert !Crowds(d.chars, y, p, crdt.who);
    if Precedes(py, px) { Sandwich(Path(d.chars, p), py, px); }
  }

  lemma FaithfulAddIsInPlace(d: Doc, crdt: Crdt)
    requires Faithful(d) && Sound(d) && Lands(d.chars, crdt) && Faithful(Inserted(d, crdt))
    ensures InPlace(d.chars, crdt)
  {
    FaithfulIsWellFormed(d);
    FaithfulIsWellFormed(Inserted(d, crdt));
    AddKeepsWellFormedIff(d, crdt);
    var p, x := crdt.relation.parent, crdt.who;
    forall y | Crowds(d.chars, y, p, x) ensures Plain(d.chars, y, p) && !IsLineBreak(crdt.relation.value) {
      CrowdsBetween(d, crdt, y);
      Passed(d, p, x, IndexOf(d.flat, y));
    }
  }

  /** In a faithful result, what crowds the newcomer is shown between its home and its slot. */
  lemma CrowdsBetween(d: Doc, crdt: Crdt, y: Ident)
    requires Faithful(d) && WellFormed(d) && Lands(d.chars, crdt) && Anchored(d.chars, crdt)
    requires Faithful(Inserted(d, crdt)) && Crowds(d.chars, y, crdt.relation.parent, crdt.who)
    ensures y in d.flat && IndexOf(d.flat, Home(d.chars, crdt.relation.parent)) < IndexOf(d.flat, y) < Slot(d, crdt)
  {
    NewPath(d, crdt);
    AnchoredAddKeepsWellFormed(d, crdt);
    var d', s, x, home := Inserted(d, crdt), Slot(d, crdt), crdt.who, Home(d.chars, crdt.relation.parent);
    assert y in d.flat;
    PrefixPrecedes(Path(d.chars, home), Path(d.chars, y));
    IndicesOfOrder(d, home, y);
    assert Path(d'.chars, y) == Path(d.chars, y);
    IndicesOfOrder(d', y, x);
    IndexAfterInsert(d.flat, s, x, y);
  }

  /** Exactly the adds that land in place keep the list equal to the tree's walk. */
  lemma AddIsFaithfulIff(d: Doc, crdt: Crdt)
    requires Faithful(d) && Lands(d.chars, crdt)
    ensures Sound(d)
    ensures Faithful(Inserted(d, crdt)) <==> InPlace(d.chars, crdt)
  {
    if InPlace(d.chars, crdt) { InPlaceAddIsFaithful(d, crdt); }
    if Faithful(Inserted(d, crdt)) { FaithfulAddIsInPlace(d, crdt); }
  }

  /** Two faithful documents over one tree are the same document. */
  lemma FaithfulIsUnique(d: Doc, e: Doc)
    requires Faithful(d) && Faithful(e) && d.chars == e.chars
    ensures d == e
  {
    forall x, y ensures !(InOrder(d.chars)(x, y) && InOrder(d.chars)(y, x)) {
      if x in d.chars && y in d.chars { PrecedesStrict(Path(d.chars, x), Path(d.chars, y)); }
    }
    SortedUnique(d.flat, e.flat, InOrder(d.chars));
  }

  // ----- Runs -----

  lemma RemoveIsFaithful(d: Doc, x: Ident)
    requires Faithful(d)
    ensures Faithful(Remove(d, x))
  {
    if x != ROOT && Live(d.chars, x) {
      var d' := Remove(d, x);
      RootedAfterTombstone(d.chars, x);
      OrderFrame(d, d'.chars);
      PairwiseErase(d.flat, x, InOrder(d'.chars));
    }
  }

  ghost predicate StepInPlace(d: Doc, op: Op)
    requires Sound(d)
  {
    op.Insert? && Lands(d.chars, op.crdt) ==> InPlace(d.chars, op.crdt)
  }

  ghost predicate RunInPlace(d: Doc, ops: seq<Op>)
    requires Sound(d)
    decreases |ops|
  {
    ops == [] || (StepInPlace(d, ops[0]) && RunInPlace(Step(d, ops[0]), ops[1..]))
  }

  ghost predicate AlwaysFaithful(d: Doc, ops: seq<Op>)
    requires Sound(d)
    decreases |ops|
  {
    Faithful(d) && (ops == [] || AlwaysFaithful(Step(d, ops[0]), ops[1..]))
  }

  /** Over every run of adds and removes, the list stays equal to the tree's walk exactly as long
      as every add that lands, lands in place. */
  lemma {:induction false} RunIsFaithfulIff(d: Doc, ops: seq<Op>)
    requires Faithful(d) && Sound(d)
    ensures AlwaysFaithful(d, ops) <==> RunInPlace(d, ops)
    ensures RunInPlace(d, ops) ==> Faithful(Run(d, ops))
    decreases |ops|
  {
    if ops != [] {
      match ops[0] {
        case Insert(crdt) => if Lands(d.chars, crdt) { AddIsFaithfulIff(d, crdt); }
        case Delete(who) => RemoveIsFaithful(d, who);
      }
      if Faithful(Step(d, ops[0])) { RunIsFaithfulIff(Step(d, ops[0]), ops[1..]); }
    }
  }

  /** Replicas that reach the same tree by any two runs of adds in place, with removes anywhere
      in between, show the same document. */
  lemma Convergence(d: Doc, ops: seq<Op>, e: Doc, ops': seq<Op>)
    requires Faithful(d) && Faithful(e) && Sound(d) && Sound(e)
    requires RunInPlace(d, ops) && RunInPlace(e, ops')
    requires Run(d, ops).chars == Run(e, ops').chars
    ensures Run(d, ops) == Run(e, ops')
  {
    RunIsFaithfulIff(d, ops);
    RunIsFaithfulIff(e, ops');
    FaithfulIsUnique(Run(d, ops), Run(e, ops'));
  }
}
