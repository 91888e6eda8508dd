/** From any well-formed file: the newcomers of a tree make one document in every order exactly when
    any two of them that could come next commute, at every state on the way. */
module Confluence {
  import opened Types
  import opened Lists
  import opened Document
  import opened Shape
  import opened Commute
  import opened InsertInsert
  import opened Orders

  // ----- Filling a tree in -----

  ghost function After(d: Doc, goal: Chars, x: Ident): (d': Doc)
    requires Sound(d) && Next(goal, d.chars, x)
    ensures Sound(d') && d'.chars == d.chars[x := goal[x]]
  {
    StepGrows(d, goal, x);
    Step(d, Insert(Planned(goal, x)))
  }

  ghost function Filled(d: Doc, goal: Chars, order: seq<Ident>): Doc
    requires Sound(d) && ParentsFirst(goal, d.chars, order)
    decreases |order|
  {
    if order == [] then d else Filled(After(d, goal, order[0]), goal, order[1..])
  }

  /** Every newcomer, each after its parent. */
  ghost predicate Complete(goal: Chars, chars: Chars, order: seq<Ident>) {
    ParentsFirst(goal, chars, order) && Grown(goal, chars, order) == goal
  }

  ghost predicate OneResult(d: Doc, goal: Chars)
    requires Sound(d)
  {
    forall order, order' :: Complete(goal, d.chars, order) && Complete(goal, d.chars, order') ==>
      Filled(d, goal, order) == Filled(d, goal, order')
  }

  /** Any two newcomers that can come next go to opposite sides of each other, here and at every
      later state. */
  ghost predicate AlwaysCommute(d: Doc, goal: Chars)
    requires Sound(d)
    decreases |goal.Keys - d.chars.Keys|
  {
    && (forall x, y :: Next(goal, d.chars, x) && Next(goal, d.chars, y) && x != y ==>
        Opposite(d, Planned(goal, x), Planned(goal, y)))
    && forall x :: Next(goal, d.chars, x) ==> (FewerMissing(goal, d.chars, x); AlwaysCommute(After(d, goal, x), goal))
  }

  lemma {:induction false} FilledIsRun(d: Doc, goal: Chars, order: seq<Ident>)
    requires Sound(d) && ParentsFirst(goal, d.chars, order) && forall x :: x in order ==> x in goal
    ensures Filled(d, goal, order) == Run(d, Inserts(goal, order))
    decreases |order|
  {
    if order != [] {
      var x, rest := order[0], order[1..];
      InsertsFirst(goal, x, rest);
      assert order == [x] + rest;
      FilledIsRun(After(d, goal, x), goal, rest);
    }
  }

  lemma AfterKeeps(d: Doc, goal: Chars, x: Ident)
    requires WellFormed(d) && Extends(goal, d.chars) && Next(goal, d.chars, x)
    ensures WellFormed(After(d, goal, x)) && Extends(goal, After(d, goal, x).chars)
  {
    NextIsAnchored(goal, d.chars, x);
    AnchoredAddKeepsWellFormed(d, Planned(goal, x));
    NextExtends(goal, d.chars, x);
  }

  lemma {:induction false} FilledKeeps(d: Doc, goal: Chars, order: seq<Ident>)
    requires WellFormed(d) && Extends(goal, d.chars) && ParentsFirst(goal, d.chars, order)
    ensures WellFormed(Filled(d, goal, order)) && Filled(d, goal, order).chars == Grown(goal, d.chars, order)
    ensures forall u, v :: Ahead(d.flat, u, v) ==> Ahead(Filled(d, goal, order).flat, u, v)
    decreases |order|
  {
    if order != [] {
      AfterKeeps(d, goal, order[0]);
      AfterAhead(d, goal, order[0]);
      FilledKeeps(After(d, goal, order[0]), goal, order[1..]);
    }
  }

  lemma AfterAhead(d: Doc, goal: Chars, x: Ident)
    requires WellFormed(d) && Extends(goal, d.chars) && Next(goal, d.chars, x)
    ensures forall u, v :: Ahead(d.flat, u, v) ==> Ahead(After(d, goal, x).flat, u, v)
  {
    NextIsAnchored(goal, d.chars, x);
    AnchoredAddKeepsWellFormed(d, Planned(goal, x));
    forall u, v | Ahead(d.flat, u, v) ensures Ahead(After(d, goal, x).flat, u, v) {
      AheadAfterInsert(d.flat, Slot(d, Planned(goal, x)), x, u, v);
    }
  }

  /** Two newcomers that can come next, in both orders. */
  lemma BothNext(d: Doc, goal: Chars, x: Ident, y: Ident)
    requires WellFormed(d) && Extends(goal, d.chars) && Next(goal, d.chars, x) && Next(goal, d.chars, y) && x != y
    ensures Next(goal, After(d, goal, x).chars, y) && Next(goal, After(d, goal, y).chars, x)
    ensures After(After(d, goal, x), goal, y) == After(After(d, goal, y), goal, x) <==>
      Opposite(d, Planned(goal, x), Planned(goal, y))
  {
    NextIsAnchored(goal, d.chars, x);
    NextIsAnchored(goal, d.chars, y);
    InsertInsertCommuteIff(d, Planned(goal, x), Planned(goal, y));
  }

  // ----- Commuting is enough -----

  lemma {:induction false} IsInOrder(goal: Chars, chars: Chars, order: seq<Ident>, x: Ident)
    requires Complete(goal, chars, order) && x in goal && x !in chars
    ensures x in order && order != []
    decreases |order|
  {
    if order[0] != x { IsInOrder(goal, chars[order[0] := goal[order[0]]], order[1..], x); }
  }

  /** What can come first may come first. */
  lemma {:induction false} BringFirst(d: Doc, goal: Chars, order: seq<Ident>, x: Ident) returns (rest: seq<Ident>)
    requires WellFormed(d) && Extends(goal, d.chars) && AlwaysCommute(d, goal)
    requires Complete(goal, d.chars, order) && Next(goal, d.chars, x)
    ensures Complete(goal, After(d, goal, x).chars, rest)
    ensures Filled(After(d, goal, x), goal, rest) == Filled(d, goal, order)
    decreases |order|
  {
    IsInOrder(goal, d.chars, order, x);
    var y := order[0];
    if y == x {
      rest := order[1..];
    } else {
      BothNext(d, goal, x, y);
      AfterKeeps(d, goal, y);
      var rest' := BringFirst(After(d, goal, y), goal, order[1..], x);
      rest := [y] + rest';
      PutFirst(After(d, goal, x), goal, y, rest');
    }
  }

  lemma PutFirst(d: Doc, goal: Chars, y: Ident, rest: seq<Ident>)
    requires Sound(d) && Next(goal, d.chars, y) && Complete(goal, After(d, goal, y).chars, rest)
    ensures Complete(goal, d.chars, [y] + rest) && Filled(d, goal, [y] + rest) == Filled(After(d, goal, y), goal, rest)
  {
    FirstGrows(goal, d.chars, y, rest);
    assert ([y] + rest)[0] == y && ([y] + rest)[1..] == rest;
  }

  lemma {:induction false} CommutingIsOneResult(d: Doc, goal: Chars, order: seq<Ident>, order': seq<Ident>)
    requires WellFormed(d) && Sound(d) && Extends(goal, d.chars) && AlwaysCommute(d, goal)
    requires Complete(goal, d.chars, order) && Complete(goal, d.chars, order')
    ensures Filled(d, goal, order) == Filled(d, goal, order')
    decreases |order|
  {
    if order == [] {
      assert order' == [];
    } else {
      var x := order[0];
      var rest := BringFirst(d, goal, order', x);
      AfterKeeps(d, goal, x);
      CommutingIsOneResult(After(d, goal, x), goal, order[1..], rest);
    }
  }

  // ----- Commuting is needed -----

  /** Two lists of the same elements differ: some pair stands one way in one and the other way in the other. */
  lemma ReversedPair(f: seq<Ident>, g: seq<Ident>) returns (u: Ident, v: Ident)
    requires Distinct(f) && Distinct(g) && (forall x :: x in f <==> x in g) && f != g
    ensures Ahead(f, u, v) && Ahead(g, v, u)
  {
    if forall i, j :: 0 <= i < j < |g| ==> Ahead(f, g[i], g[j]) {
      SameOrder(f, g);
      u, v := ROOT, ROOT;
    } else {
      var i, j :| 0 <= i < j < |g| && !Ahead(f, g[i], g[j]);
      u, v := g[j], g[i];
      AheadAt(g, i, j);
      assert u in f && v in f && u != v;
    }
  }

  lemma SameOrder(f: seq<Ident>, g: seq<Ident>)
    requires Distinct(f) && Distinct(g) && (forall x :: x in f <==> x in g)
    requires forall i, j :: 0 <= i < j < |g| ==> Ahead(f, g[i], g[j])
    ensures f == g
  {
    var r := (x, y) => Ahead(f, x, y);
    forall i, j | 0 <= i < j < |f| ensures r(f[i], f[j]) { AheadAt(f, i, j); }
    SortedUnique(f, g, r);
  }

  /** A pair that does not commute makes two documents: what is reversed stays reversed. */
  lemma ReversedStays(d: Doc, goal: Chars, x: Ident, y: Ident) returns (order: seq<Ident>, order': seq<Ident>)
    requires WellFormed(d) && Sound(d) && Extends(goal, d.chars) && Next(goal, d.chars, x) && Next(goal, d.chars, y)
    requires x != y
    requires !Opposite(d, Planned(goal, x), Planned(goal, y))
    ensures Complete(goal, d.chars, order) && Complete(goal, d.chars, order')
    ensures Filled(d, goal, order) != Filled(d, goal, order')
  {
    BothStates(d, goal, x, y);
    var xy, yx := After(After(d, goal, x), goal, y), After(After(d, goal, y), goal, x);
    var rest := AnyCompletion(goal, xy.chars);
    StayApart(xy, yx, goal, rest);
    PutTwoFirst(d, goal, x, y, rest);
    PutTwoFirst(d, goal, y, x, rest);
    order, order' := [x] + ([y] + rest), [y] + ([x] + rest);
  }

  lemma BothStates(d: Doc, goal: Chars, x: Ident, y: Ident)
    requires WellFormed(d) && Sound(d) && Extends(goal, d.chars) && Next(goal, d.chars, x) && Next(goal, d.chars, y)
    requires x != y
    requires !Opposite(d, Planned(goal, x), Planned(goal, y))
    ensures Next(goal, After(d, goal, x).chars, y) && Next(goal, After(d, goal, y).chars, x)
    ensures var xy, yx := After(After(d, goal, x), goal, y), After(After(d, goal, y), goal, x);
      WellFormed(xy) && WellFormed(yx) && xy.chars == yx.chars && xy != yx && Extends(goal, xy.chars)
  {
    TwoAfter(d, goal, x, y);
    TwoAfter(d, goal, y, x);
    UpdatesSwap(d.chars, Planned(goal, x), Planned(goal, y));
    BothNext(d, goal, x, y);
  }

  lemma TwoAfter(d: Doc, goal: Chars, x: Ident, y: Ident)
    requires WellFormed(d) && Sound(d) && Extends(goal, d.chars) && Next(goal, d.chars, x) && Next(goal, d.chars, y)
    requires x != y
    ensures Next(goal, After(d, goal, x).chars, y)
    ensures var xy := After(After(d, goal, x), goal, y);
      WellFormed(xy) && Extends(goal, xy.chars) && xy.chars == d.chars[x := goal[x]][y := goal[y]]
  {
    AfterKeeps(d, goal, x);
    AfterKeeps(After(d, goal, x), goal, y);
  }

  lemma PutTwoFirst(d: Doc, goal: Chars, x: Ident, y: Ident, rest: seq<Ident>)
    requires Sound(d) && Next(goal, d.chars, x) && Next(goal, After(d, goal, x).chars, y)
    requires Complete(goal, After(After(d, goal, x), goal, y).chars, rest)
    ensures Complete(goal, d.chars, [x] + ([y] + rest))
    ensures Filled(d, goal, [x] + ([y] + rest)) == Filled(After(After(d, goal, x), goal, y), goal, rest)
  {
    PutFirst(After(d, goal, x), goal, y, rest);
    PutFirst(d, goal, x, [y] + rest);
  }

  lemma StayApart(d: Doc, e: Doc, goal: Chars, rest: seq<Ident>)
    requires WellFormed(d) && WellFormed(e) && d.chars == e.chars && d != e
    requires Extends(goal, d.chars) && ParentsFirst(goal, d.chars, rest)
    ensures Filled(d, goal, rest) != Filled(e, goal, rest)
  {
    var u, v := ReversedPair(d.flat, e.flat);
    FilledKeeps(d, goal, rest);
    FilledKeeps(e, goal, rest);
    assert Ahead(Filled(d, goal, rest).flat, u, v) && Ahead(Filled(e, goal, rest).flat, v, u);
  }

  lemma {:induction false} NotCommuting(d: Doc, goal: Chars) returns (order: seq<Ident>, order': seq<Ident>)
    requires WellFormed(d) && Sound(d) && Extends(goal, d.chars) && !AlwaysCommute(d, goal)
    ensures Complete(goal, d.chars, order) && Complete(goal, d.chars, order')
    ensures Filled(d, goal, order) != Filled(d, goal, order')
    decreases |goal.Keys - d.chars.Keys|
  {
    if x, y :|
      Next(goal, d.chars, x) && Next(goal, d.chars, y) && x != y && !Opposite(d, Planned(goal, x), Planned(goal, y)) {
      order, order' := ReversedStays(d, goal, x, y);
    } else {
      var x :| Next(goal, d.chars, x) && !AlwaysCommute(After(d, goal, x), goal);
      AfterKeeps(d, goal, x);
      FewerMissing(goal, d.chars, x);
      var rest, rest' := NotCommuting(After(d, goal, x), goal);
      PutFirst(d, goal, x, rest);
      PutFirst(d, goal, x, rest');
      order, order' := [x] + rest, [x] + rest';
    }
  }

  /** All complete orders end with one document exactly when any two newcomers that can come next
      commute at every state on the way. */
  lemma OneResultIff(d: Doc, goal: Chars)
    requires WellFormed(d) && Extends(goal, d.chars)
    ensures Sound(d)
    ensures OneResult(d, goal) <==> AlwaysCommute(d, goal)
  {
    if AlwaysCommute(d, goal) {
      forall order, order' | Complete(goal, d.chars, order) && Complete(goal, d.chars, order')
        ensures Filled(d, goal, order) == Filled(d, goal, order')
      {
        CommutingIsOneResult(d, goal, order, order');
      }
    } else {
      var order, order' := NotCommuting(d, goal);
    }
  }
}
