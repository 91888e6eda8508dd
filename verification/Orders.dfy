/** Orders in which the new nodes of a tree can be inserted. */
module Orders {
  import opened Types
  import opened CharTree
  import opened Document
  import opened Shape
  import opened Queue
  import opened Delivery
  import opened Commute
  import opened Agreement

  function Planned(goal: Chars, x: Ident): Crdt
    requires x in goal
  {
    Crdt(x, goal[x])
  }

  function Inserts(goal: Chars, order: seq<Ident>): (ops: seq<Op>)
    requires forall x :: x in order ==> x in goal
    ensures |ops| == |order| && forall i :: 0 <= i < |order| ==> ops[i] == Insert(Planned(goal, order[i]))
  {
    seq(|order|, i requires 0 <= i < |order| => Insert(Planned(goal, order[i])))
  }

  /** `goal` is `chars` and live newcomers, all of them anchored. */
  ghost predicate Extends(goal: Chars, chars: Chars) {
    && Rooted(goal) && Rooted(chars) && (forall x :: x in chars ==> x in goal && chars[x] == goal[x])
    && forall x :: x in goal && x !in chars ==> goal[x].parent in goal && Anchored(goal, Planned(goal, x))
  }

  /** New nodes of `goal`, each after its parent. */
  ghost predicate ParentsFirst(goal: Chars, chars: Chars, order: seq<Ident>)
    decreases |order|
  {
    order == [] || (Next(goal, chars, order[0]) && ParentsFirst(goal, chars[order[0] := goal[order[0]]], order[1..]))
  }

  ghost predicate Next(goal: Chars, chars: Chars, x: Ident) {
    x in goal && x !in chars && goal[x].parent in chars
  }

  ghost function Grown(goal: Chars, chars: Chars, order: seq<Ident>): Chars
    requires ParentsFirst(goal, chars, order)
    decreases |order|
  {
    if order == [] then chars else Grown(goal, chars[order[0] := goal[order[0]]], order[1..])
  }

  lemma NextExtends(goal: Chars, chars: Chars, x: Ident)
    requires Extends(goal, chars) && Next(goal, chars, x)
    ensures Extends(goal, chars[x := goal[x]]) && x != ROOT
  {
    RootedAfterAdd(chars, x, goal[x]);
  }

  lemma {:induction false} GrownKeeps(goal: Chars, chars: Chars, order: seq<Ident>)
    requires Extends(goal, chars) && ParentsFirst(goal, chars, order)
    ensures Extends(goal, Grown(goal, chars, order)) && forall x :: x in order ==> x in goal
    ensures forall x :: x in Grown(goal, chars, order) <==> x in chars || x in order
    decreases |order|
  {
    if order != [] {
      NextExtends(goal, chars, order[0]);
      GrownKeeps(goal, chars[order[0] := goal[order[0]]], order[1..]);
      assert order == [order[0]] + order[1..];
    }
  }

  lemma {:induction false} Continues(goal: Chars, chars: Chars, order: seq<Ident>, more: seq<Ident>)
    requires ParentsFirst(goal, chars, order) && ParentsFirst(goal, Grown(goal, chars, order), more)
    ensures ParentsFirst(goal, chars, order + more)
    ensures Grown(goal, chars, order + more) == Grown(goal, Grown(goal, chars, order), more)
    decreases |order|
  {
    if order == [] {
      assert order + more == more;
    } else {
      Continues(goal, chars[order[0] := goal[order[0]]], order[1..], more);
      assert (order + more)[0] == order[0] && (order + more)[1..] == order[1..] + more;
    }
  }

  /** Anchored in `goal` is anchored on the way. */
  lemma NextIsAnchored(goal: Chars, chars: Chars, x: Ident)
    requires Extends(goal, chars) && Next(goal, chars, x)
    ensures Lands(chars, Planned(goal, x)) && Anchored(chars, Planned(goal, x))
  {
    ReachesRootFrame(chars, goal, goal[x].parent);
  }

  /** Such an order is an anchored run of inserts. */
  lemma {:induction false} OrderIsRun(d: Doc, goal: Chars, order: seq<Ident>)
    requires Sound(d) && Extends(goal, d.chars) && ParentsFirst(goal, d.chars, order)
    ensures forall x :: x in order ==> x in goal
    ensures RunAnchored(d, Inserts(goal, order)) && InsertsOnly(Inserts(goal, order))
    ensures Run(d, Inserts(goal, order)).chars == Grown(goal, d.chars, order)
    decreases |order|
  {
    GrownKeeps(goal, d.chars, order);
    if order != [] {
      var x := order[0];
      NextExtends(goal, d.chars, x);
      NextIsAnchored(goal, d.chars, x);
      assert Inserts(goal, order)[0] == Insert(Planned(goal, x)) &&
        Inserts(goal, order)[1..] == Inserts(goal, order[1..]);
      OrderIsRun(Step(d, Insert(Planned(goal, x))), goal, order[1..]);
    }
  }

  /** Something missing has its parent already. */
  lemma {:induction false} SomethingIsNext(goal: Chars, chars: Chars, x: Ident) returns (y: Ident)
    requires Extends(goal, chars) && x in goal && x !in chars
    ensures Next(goal, chars, y)
    decreases Ranks(goal)[x]
  {
    y := x;
    if goal[x].parent !in chars { y := SomethingIsNext(goal, chars, goal[x].parent); }
  }

  lemma InsertsFirst(goal: Chars, x: Ident, rest: seq<Ident>)
    requires x in goal && forall y :: y in rest ==> y in goal
    ensures forall y :: y in [x] + rest ==> y in goal
    ensures Inserts(goal, [x] + rest)[0] == Insert(Planned(goal, x))
    ensures Inserts(goal, [x] + rest)[1..] == Inserts(goal, rest)
  {}

  lemma StepGrows(d: Doc, goal: Chars, x: Ident)
    requires Sound(d) && Next(goal, d.chars, x)
    ensures Step(d, Insert(Planned(goal, x))).chars == d.chars[x := goal[x]]
  {}

  lemma FirstGrows(goal: Chars, chars: Chars, x: Ident, rest: seq<Ident>)
    requires Next(goal, chars, x) && ParentsFirst(goal, chars[x := goal[x]], rest)
    ensures ParentsFirst(goal, chars, [x] + rest)
    ensures Grown(goal, chars, [x] + rest) == Grown(goal, chars[x := goal[x]], rest)
  {
    assert ([x] + rest)[0] == x && ([x] + rest)[1..] == rest;
  }

  lemma FewerMissing(goal: Chars, chars: Chars, x: Ident)
    requires x in goal && x !in chars
    ensures |goal.Keys - chars[x := goal[x]].Keys| < |goal.Keys - chars.Keys|
  {
    assert goal.Keys - chars[x := goal[x]].Keys == goal.Keys - chars.Keys - {x};
  }

  lemma {:induction false} AnyCompletion(goal: Chars, chars: Chars) returns (order: seq<Ident>)
    requires Extends(goal, chars)
    ensures ParentsFirst(goal, chars, order) && Grown(goal, chars, order) == goal
    decreases |goal.Keys - chars.Keys|
  {
    if z :| z in goal && z !in chars {
      var x := SomethingIsNext(goal, chars, z);
      NextExtends(goal, chars, x);
      FewerMissing(goal, chars, x);
      var rest := AnyCompletion(goal, chars[x := goal[x]]);
      FirstGrows(goal, chars, x, rest);
      order := [x] + rest;
    } else {
      order := [];
      assert chars == goal;
    }
  }

  lemma InsertsConcat(goal: Chars, order: seq<Ident>, more: seq<Ident>)
    requires forall x :: x in order + more ==> x in goal
    ensures forall x :: x in order ==> x in order + more
    ensures forall x :: x in more ==> x in order + more
    ensures Inserts(goal, order + more) == Inserts(goal, order) + Inserts(goal, more)
  {}

  lemma {:induction false} OrderIsNew(goal: Chars, chars: Chars, order: seq<Ident>)
    requires ParentsFirst(goal, chars, order)
    ensures forall x :: x in order ==> x !in chars
    decreases |order|
  {
    if order != [] {
      OrderIsNew(goal, chars[order[0] := goal[order[0]]], order[1..]);
      assert order == [order[0]] + order[1..];
    }
  }

  // ----- Delivered -----

  function Sends(goal: Chars, order: seq<Ident>): (ops: seq<NetOp>)
    requires forall x :: x in order ==> x in goal
    ensures |ops| == |order| && forall i :: 0 <= i < |order| ==> ops[i] == NetAdd(Planned(goal, order[i]), 0)
  {
    seq(|order|, i requires 0 <= i < |order| => NetAdd(Planned(goal, order[i]), 0))
  }

  /** Delivered to a queue with nothing waiting, such an order is that run. */
  lemma {:induction false} OrderIsDelivered(q: State, goal: Chars, order: seq<Ident>)
    requires Sound(q.doc) && q.net == NetSide(map[], []) && Extends(goal, q.doc.chars)
    requires ParentsFirst(goal, q.doc.chars, order)
    ensures forall x :: x in order ==> x in goal
    ensures DeliverAll(q, Sends(goal, order)).doc == Run(q.doc, Inserts(goal, order))
    decreases |order|
  {
    GrownKeeps(goal, q.doc.chars, order);
    if order != [] {
      var x := order[0];
      NextExtends(goal, q.doc.chars, x);
      assert Inserts(goal, order)[0] == Insert(Planned(goal, x)) &&
        Inserts(goal, order)[1..] == Inserts(goal, order[1..]);
      assert Sends(goal, order)[0] == NetAdd(Planned(goal, x), 0) && Sends(goal, order)[1..] == Sends(goal, order[1..]);
      DeliverAddAtOnce(q, Planned(goal, x), 0);
      OrderIsDelivered(Deliver(q, NetAdd(Planned(goal, x), 0)), goal, order[1..]);
    }
  }
}
