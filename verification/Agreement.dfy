/** When two replicas that hold one tree agree: the exact conditions, for runs of inserts and for
    runs with removes. */
module Agreement {
  import opened Types
  import opened CharTree
  import opened Lists
  import opened Document
  import opened Shape
  import opened TreeOrder

  // ----- Runs of inserts: the exact condition -----

  ghost predicate InsertsOnly(ops: seq<Op>) {
    forall op :: op in ops ==> op.Insert?
  }

  /** Two shown nodes stand against the order of the walk. */
  ghost predicate Disordered(d: Doc) {
    Rooted(d.chars) && exists x, y :: Against(d, x, y)
  }

  ghost predicate Against(d: Doc, x: Ident, y: Ident)
    requires Rooted(d.chars)
  {
    Ahead(d.flat, x, y) && x in d.chars && y in d.chars && Before(d.chars, y, x)
  }

  lemma DisorderedIff(d: Doc)
    requires WellFormed(d)
    ensures Faithful(d) <==> !Disordered(d)
  {
    if Faithful(d) {
      forall x, y ensures !Against(d, x, y) { InOrderIsNotAgainst(d, x, y); }
    } else {
      var i, j :| 0 <= i < j < |d.flat| && !InOrder(d.chars)(d.flat[i], d.flat[j]);
      AheadAt(d.flat, i, j);
      assert d.flat[i] in d.flat && d.flat[j] in d.flat;
      PathsDiffer(d.chars, d.flat[i], d.flat[j]);
      PrecedesStrict(Path(d.chars, d.flat[i]), Path(d.chars, d.flat[j]));
      assert Against(d, d.flat[i], d.flat[j]);
    }
  }

  lemma InOrderIsNotAgainst(d: Doc, x: Ident, y: Ident)
    requires Faithful(d)
    ensures !Against(d, x, y)
  {
    if Ahead(d.flat, x, y) {
      OrderOfIndices(d, IndexOf(d.flat, x), IndexOf(d.flat, y));
      PrecedesStrict(Path(d.chars, x), Path(d.chars, y));
    }
  }

  lemma PathsDiffer(chars: Chars, x: Ident, y: Ident)
    requires Rooted(chars) && x in chars && y in chars && x != y
    ensures Path(chars, x) != Path(chars, y)
  {
    assert Path(chars, x)[|Path(chars, x)| - 1] == x && Path(chars, y)[|Path(chars, y)| - 1] == y;
  }

  /** An insert never puts right what stands against the order. */
  lemma DisorderStays(d: Doc, crdt: Crdt)
    requires WellFormed(d) && Disordered(d) && Lands(d.chars, crdt) && Anchored(d.chars, crdt)
    ensures WellFormed(Inserted(d, crdt)) && Disordered(Inserted(d, crdt))
  {
    AnchoredAddKeepsWellFormed(d, crdt);
    NewPath(d, crdt);
    var x, y :| Against(d, x, y);
    AheadAfterInsert(d.flat, Slot(d, crdt), crdt.who, x, y);
    assert Against(Inserted(d, crdt), x, y);
  }

  lemma {:induction false} DisorderLasts(d: Doc, ops: seq<Op>)
    requires WellFormed(d) && Disordered(d) && InsertsOnly(ops) && RunAnchored(d, ops)
    ensures !Faithful(Run(d, ops))
    decreases |ops|
  {
    if ops == [] {
      DisorderedIff(d);
    } else {
      assert ops[0] in ops;
      if Lands(d.chars, ops[0].crdt) { DisorderStays(d, ops[0].crdt); }
      DisorderLasts(Step(d, ops[0]), ops[1..]);
    }
  }

  /** A run of anchored inserts ends with the walk of the tree exactly when each of them lands in place. */
  lemma {:induction false} AddsFaithfulIff(d: Doc, ops: seq<Op>)
    requires Faithful(d) && Sound(d) && InsertsOnly(ops) && RunAnchored(d, ops)
    ensures Faithful(Run(d, ops)) <==> RunInPlace(d, ops)
    decreases |ops|
  {
    if ops != [] {
      var d' := Step(d, ops[0]);
      assert ops[0] in ops;
      FaithfulIsWellFormed(d);
      if Lands(d.chars, ops[0].crdt) {
        AddIsFaithfulIff(d, ops[0].crdt);
        AnchoredAddKeepsWellFormed(d, ops[0].crdt);
      }
      if Faithful(d') {
        AddsFaithfulIff(d', ops[1..]);
      } else {
        DisorderedIff(d');
        DisorderLasts(d', ops[1..]);
      }
    }
  }

  /** Of two replicas that end with one tree, one of them by inserts in place: the other, whose run
      is any run of anchored inserts, shows the same document exactly when its inserts were in
      place too. */
  lemma AddsConvergeIff(d: Doc, ops: seq<Op>, e: Doc, ops': seq<Op>)
    requires Faithful(d) && Sound(d) && InsertsOnly(ops) && RunAnchored(d, ops)
    requires Faithful(e) && Sound(e) && RunInPlace(e, ops')
    requires Run(d, ops).chars == Run(e, ops').chars
    ensures Run(d, ops) == Run(e, ops') <==> RunInPlace(d, ops)
  {
    AddsFaithfulIff(d, ops);
    RunIsFaithfulIff(e, ops');
    if RunInPlace(d, ops) { FaithfulIsUnique(Run(d, ops), Run(e, ops')); }
  }

  // ----- Runs with removes: the exact condition -----

  /** The slot of the newcomer lies on the same side of `y` as its place in the walk. */
  ghost predicate RightSideOf(d: Doc, crdt: Crdt, y: Ident)
    requires Sound(d) && crdt.relation.parent in d.chars && y in d.flat && y in d.chars
  {
    IndexOf(d.flat, y) < Slot(d, crdt) <==> Precedes(Path(d.chars, y), Path(d.chars, crdt.relation.parent) + [crdt.who])
  }

  /** An insert that lands may be on the wrong side only of what does not survive to `last`, if it survives itself. */
  ghost predicate StepSettles(d: Doc, op: Op, last: Chars)
    requires Sound(d)
  {
    op.Insert? && Lands(d.chars, op.crdt) && Live(last, op.crdt.who) ==>
      forall y :: y in d.flat && y in d.chars && Live(last, y) ==> RightSideOf(d, op.crdt, y)
  }

  ghost predicate RunSettles(d: Doc, ops: seq<Op>, last: Chars)
    requires Sound(d)
    decreases |ops|
  {
    ops == [] || (StepSettles(d, ops[0], last) && RunSettles(Step(d, ops[0]), ops[1..], last))
  }

  /** Those that survive to `last` are shown in the order of the walk. */
  ghost predicate SurvivorsInOrder(d: Doc, last: Chars)
    requires Rooted(d.chars)
  {
    forall x, y :: Live(last, x) && Live(last, y) ==> !Against(d, x, y)
  }

  /** Nothing that survives to `last` is dead in `d`. */
  ghost predicate Survivors(d: Doc, last: Chars) {
    forall x :: x in d.chars && Live(last, x) ==> Live(d.chars, x)
  }

  lemma RemoveSettles(d: Doc, who: Ident, last: Chars)
    requires WellFormed(d) && Survivors(d, last) && Survivors(Remove(d, who), last)
    ensures WellFormed(Remove(d, who))
    ensures SurvivorsInOrder(Remove(d, who), last) <==> SurvivorsInOrder(d, last)
  {
    var d' := Remove(d, who);
    RemoveKeepsWellFormed(d, who);
    if who != ROOT && Live(d.chars, who) {
      PathsFrame(d.chars, d'.chars);
      forall x, y | Live(last, x) && Live(last, y) ensures Against(d, x, y) <==> Against(d', x, y) {
        ErasedAhead(d, who, x, y);
      }
    }
  }

  lemma ErasedAhead(d: Doc, who: Ident, x: Ident, y: Ident)
    requires WellFormed(d) && x != who && y != who
    ensures Ahead(Erase(d.flat, who), x, y) <==> Ahead(d.flat, x, y)
  {
    if Ahead(d.flat, x, y) { AheadAfterErase(d.flat, who, x, y); }
    if Ahead(d.flat, y, x) { AheadAfterErase(d.flat, who, y, x); }
  }

  lemma InsertedAhead(d: Doc, crdt: Crdt, y: Ident)
    requires WellFormed(d) && Lands(d.chars, crdt) && Anchored(d.chars, crdt) && y in d.flat
    ensures var f := Inserted(d, crdt).flat;
      (Ahead(f, y, crdt.who) <==> IndexOf(d.flat, y) < Slot(d, crdt)) &&
        (Ahead(f, crdt.who, y) <==> IndexOf(d.flat, y) >= Slot(d, crdt))
  {
    AnchoredAddKeepsWellFormed(d, crdt);
    IndexAfterInsert(d.flat, Slot(d, crdt), crdt.who, y);
  }

  lemma OldPairs(d: Doc, crdt: Crdt, x: Ident, y: Ident)
    requires WellFormed(d) && Lands(d.chars, crdt) && Anchored(d.chars, crdt) && x in d.flat && y in d.flat
    ensures Ahead(Inserted(d, crdt).flat, x, y) <==> Ahead(d.flat, x, y)
  {
    AnchoredAddKeepsWellFormed(d, crdt);
    IndexAfterInsert(d.flat, Slot(d, crdt), crdt.who, x);
    IndexAfterInsert(d.flat, Slot(d, crdt), crdt.who, y);
  }

  lemma NewPairs(d: Doc, crdt: Crdt, y: Ident)
    requires WellFormed(d) && Lands(d.chars, crdt) && Anchored(d.chars, crdt) && y in d.flat
    ensures y in d.chars && Rooted(Inserted(d, crdt).chars)
    ensures RightSideOf(d, crdt, y) <==>
      !Against(Inserted(d, crdt), y, crdt.who) && !Against(Inserted(d, crdt), crdt.who, y)
  {
    NewPath(d, crdt);
    InsertedAhead(d, crdt, y);
    var chars' := Inserted(d, crdt).chars;
    PathsDiffer(chars', y, crdt.who);
    PrecedesStrict(Path(chars', y), Path(chars', crdt.who));
  }

  /** A pair that was there before stands as it stood. */
  lemma OldPairStays(d: Doc, crdt: Crdt, x: Ident, y: Ident)
    requires WellFormed(d) && Lands(d.chars, crdt) && Anchored(d.chars, crdt) && x in d.flat && y in d.flat
    ensures Rooted(Inserted(d, crdt).chars)
    ensures Against(Inserted(d, crdt), x, y) <==> Against(d, x, y)
  {
    NewPath(d, crdt);
    OldPairs(d, crdt, x, y);
  }

  lemma OldPairsStay(d: Doc, crdt: Crdt)
    requires WellFormed(d) && Lands(d.chars, crdt) && Anchored(d.chars, crdt)
    ensures Rooted(Inserted(d, crdt).chars)
    ensures forall x, y :: x in d.flat && y in d.flat ==> (Against(Inserted(d, crdt), x, y) <==> Against(d, x, y))
  {
    NewPath(d, crdt);
    forall x, y | x in d.flat && y in d.flat ensures Against(Inserted(d, crdt), x, y) <==> Against(d, x, y) {
      OldPairStays(d, crdt, x, y);
    }
  }

  lemma NewPairsStand(d: Doc, crdt: Crdt)
    requires WellFormed(d) && Lands(d.chars, crdt) && Anchored(d.chars, crdt)
    ensures Rooted(Inserted(d, crdt).chars) && !Against(Inserted(d, crdt), crdt.who, crdt.who)
    ensures forall y :: y in d.flat ==> y in d.chars
    ensures forall y :: y in d.flat ==>
      (RightSideOf(d, crdt, y) <==>
        !Against(Inserted(d, crdt), y, crdt.who) && !Against(Inserted(d, crdt), crdt.who, y))
  {
    NewPath(d, crdt);
    forall y | y in d.flat
      ensures y in d.chars
      ensures RightSideOf(d, crdt, y) <==>
        !Against(Inserted(d, crdt), y, crdt.who) && !Against(Inserted(d, crdt), crdt.who, y)
    {
      NewPairs(d, crdt, y);
    }
  }

  lemma InsertSettles(d: Doc, crdt: Crdt, last: Chars)
    requires WellFormed(d) && Lands(d.chars, crdt) && Anchored(d.chars, crdt)
    ensures Rooted(Inserted(d, crdt).chars)
    ensures SurvivorsInOrder(Inserted(d, crdt), last) <==>
      SurvivorsInOrder(d, last) && StepSettles(d, Insert(crdt), last)
  {
    OldPairsStay(d, crdt);
    NewPairsStand(d, crdt);
    AnchoredAddKeepsWellFormed(d, crdt);
  }

  lemma {:induction false} RunSettlesIff(d: Doc, ops: seq<Op>)
    requires WellFormed(d) && RunAnchored(d, ops)
    ensures WellFormed(Run(d, ops))
    ensures SurvivorsInOrder(Run(d, ops), Run(d, ops).chars) <==>
      SurvivorsInOrder(d, Run(d, ops).chars) && RunSettles(d, ops, Run(d, ops).chars)
    decreases |ops|
  {
    RunKeepsWellFormed(d, ops);
    if ops != [] {
      var d', last := Step(d, ops[0]), Run(d, ops).chars;
      StepKeepsWellFormed(d, ops[0]);
      RunKeepsWellFormed(d', ops[1..]);
      match ops[0] {
        case Insert(crdt) => if Lands(d.chars, crdt) { InsertSettles(d, crdt, last); }
        case Delete(who) => RemoveSettles(d, who, last);
      }
      RunSettlesIff(d', ops[1..]);
    }
  }

  /** A run of anchored inserts and any removes ends with the walk of the tree exactly when no insert
      that survives was put on the wrong side of anything that survives. */
  lemma RunEndsFaithfulIff(d: Doc, ops: seq<Op>)
    requires Faithful(d) && Sound(d) && RunAnchored(d, ops)
    ensures Faithful(Run(d, ops)) <==> RunSettles(d, ops, Run(d, ops).chars)
  {
    FaithfulIsWellFormed(d);
    RunSettlesIff(d, ops);
    DisorderedIff(d);
    DisorderedIff(Run(d, ops));
    var e := Run(d, ops);
    assert Disordered(e) <==> !SurvivorsInOrder(e, e.chars) by {
      forall x, y | Against(e, x, y) ensures Live(e.chars, x) && Live(e.chars, y) {}
    }
  }

  /** Of two replicas that end with one tree, one of them showing its walk: the other, after any run
      of anchored inserts and any removes, shows the same document exactly when its run settles. */
  lemma ConvergeIff(d: Doc, ops: seq<Op>, e: Doc, ops': seq<Op>)
    requires Faithful(d) && Sound(d) && RunAnchored(d, ops)
    requires Sound(e) && Faithful(Run(e, ops'))
    requires Run(d, ops).chars == Run(e, ops').chars
    ensures Run(d, ops) == Run(e, ops') <==> RunSettles(d, ops, Run(d, ops).chars)
  {
    RunEndsFaithfulIff(d, ops);
    if RunSettles(d, ops, Run(d, ops).chars) { FaithfulIsUnique(Run(d, ops), Run(e, ops')); }
  }
}
