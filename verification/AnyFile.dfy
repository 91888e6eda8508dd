/** Which sets of inserts show one document in every delivery order, onto any well-formed file. */
module AnyFile {
  import opened Types
  import opened Document
  import opened TreeOrder
  import opened Queue
  import opened Delivery
  import opened Convergence
  import opened Orders
  import opened Confluence
  import opened EveryOrder

  /** A replica with nothing pending. */
  ghost predicate AtRest(q: State) {
    WellFormed(q.doc) && q.anchored && q.net == NetSide(map[], [])
  }

  /** Inserts only, parents included, anchored. */
  ghost predicate Newcomers(chars: Chars, w: World) {
    Closed(chars, w) && w.removed == {} && AllAnchored(chars, w)
  }

  lemma GoalExtends(chars: Chars, w: World)
    requires Newcomers(chars, w)
    ensures Extends(Goal(chars, w), chars)
    ensures forall x :: x in w.adds && x !in chars ==> Goal(chars, w)[x] == w.adds[x]
  {}

  // ----- Every delivery fills the tree in some order -----

  ghost predicate Fills(d0: Doc, goal: Chars, d: Doc)
    requires Sound(d0)
  {
    exists order :: ParentsFirst(goal, d0.chars, order) && d == Filled(d0, goal, order)
  }

  lemma {:induction false} FilledSnoc(d: Doc, goal: Chars, order: seq<Ident>, x: Ident)
    requires Sound(d) && ParentsFirst(goal, d.chars, order)
    requires Sound(Filled(d, goal, order)) && Next(goal, Filled(d, goal, order).chars, x)
    ensures ParentsFirst(goal, d.chars, order + [x])
    ensures Filled(d, goal, order + [x]) == After(Filled(d, goal, order), goal, x)
    decreases |order|
  {
    if order == [] {
      assert order + [x] == [x] && [x][1..] == [];
    } else {
      assert (order + [x])[0] == order[0] && (order + [x])[1..] == order[1..] + [x];
      FilledSnoc(After(d, goal, order[0]), goal, order[1..], x);
    }
  }

  lemma FillsOn(d0: Doc, goal: Chars, d: Doc, x: Ident)
    requires Sound(d0) && Sound(d) && Fills(d0, goal, d) && Next(goal, d.chars, x)
    ensures Fills(d0, goal, After(d, goal, x))
  {
    var order :| ParentsFirst(goal, d0.chars, order) && d == Filled(d0, goal, order);
    FilledSnoc(d0, goal, order, x);
  }

  lemma ItemFills(d0: Doc, w: World, q: State, log0: seq<Event>, op: NetOp)
    requires Sound(d0) && Newcomers(d0.chars, w) && OnTheWay(d0.chars, w, q, log0) && InWorld(w, op)
    requires Sound(q.doc) && Fills(d0, Goal(d0.chars, w), q.doc)
    ensures Fills(d0, Goal(d0.chars, w), NetItem(q, op).doc)
  {
    var x := op.crdt.who;
    if Lands(q.doc.chars, op.crdt) {
      assert Goal(d0.chars, w)[x] == w.adds[x] by { GoalExtends(d0.chars, w); }
      FillsOn(d0, Goal(d0.chars, w), q.doc, x);
    }
  }

  lemma {:induction false} DrainFills(d0: Doc, w: World, q: State, log0: seq<Event>)
    requires Sound(d0) && Newcomers(d0.chars, w) && Sound(q.doc) && OnTheWay(d0.chars, w, q, log0)
    requires Fills(d0, Goal(d0.chars, w), q.doc)
    ensures Fills(d0, Goal(d0.chars, w), DrainNet(q).doc)
    decreases NetPending(q), |q.net.work|
  {
    if q.net.work != [] {
      var q1, item := q.(net := q.net.(work := q.net.work[1..])), q.net.work[0];
      assert item in q.net.work && OnTheWay(d0.chars, w, q1, log0);
      ItemFills(d0, w, q1, log0, item);
      ItemOnTheWay(d0.chars, w, q1, log0, item);
      DrainFills(d0, w, PopNet(q), log0);
    }
  }

  lemma {:induction false} DeliverAllFills(d0: Doc, w: World, q: State, log0: seq<Event>, ops: seq<NetOp>)
    requires Sound(d0) && Newcomers(d0.chars, w) && Sound(q.doc) && OnTheWay(d0.chars, w, q, log0)
    requires q.net.work == [] && (forall op :: op in ops ==> InWorld(w, op)) && Fills(d0, Goal(d0.chars, w), q.doc)
    ensures Fills(d0, Goal(d0.chars, w), DeliverAll(q, ops).doc)
    decreases |ops|
  {
    if ops != [] {
      DeliverIsDrain(q, ops[0]);
      ItemFills(d0, w, q, log0, ops[0]);
      ItemOnTheWay(d0.chars, w, q, log0, ops[0]);
      DrainFills(d0, w, NetItem(q, ops[0]), log0);
      DeliverOnTheWay(d0.chars, w, q, log0, ops[0]);
      DeliverAllFills(d0, w, Deliver(q, ops[0]), log0, ops[1..]);
    }
  }

  /** Whatever the network does, the newcomers have been inserted in some order, parents first. */
  lemma DeliveryIsOrder(q: State, w: World, ops: seq<NetOp>) returns (order: seq<Ident>)
    requires AtRest(q) && Sound(q.doc) && Newcomers(q.doc.chars, w) && Delivers(w, ops)
    ensures Complete(Goal(q.doc.chars, w), q.doc.chars, order)
    ensures DeliverAll(q, ops).doc == Filled(q.doc, Goal(q.doc.chars, w), order)
  {
    var goal, none: seq<Ident> := Goal(q.doc.chars, w), [];
    assert Filled(q.doc, goal, none) == q.doc;
    StartsOnTheWay(q, w);
    DeliverAllFills(q.doc, w, q, q.log, ops);
    AnyDeliveryOrder(q, w, ops);
    order :| ParentsFirst(goal, q.doc.chars, order) && DeliverAll(q, ops).doc == Filled(q.doc, goal, order);
    GoalExtends(q.doc.chars, w);
    FilledKeeps(q.doc, goal, order);
  }

  // ----- Every order is a delivery -----

  /** What has been applied before, sent again. */
  function Resends(w: World, again: seq<Ident>): (ops: seq<NetOp>)
    requires forall x :: x in again ==> x in w.adds
    ensures |ops| == |again| && forall i :: 0 <= i < |again| ==> ops[i] == NetAdd(Crdt(again[i], w.adds[again[i]]), 0)
  {
    seq(|again|, i requires 0 <= i < |again| => NetAdd(Crdt(again[i], w.adds[again[i]]), 0))
  }

  lemma {:induction false} ResendsDoNothing(q: State, w: World, again: seq<Ident>)
    requires Sound(q.doc)
    requires (forall x :: x in again ==> x in w.adds && x in q.doc.chars && w.adds[x].parent in q.doc.chars)
    ensures DeliverAll(q, Resends(w, again)).doc == q.doc
    decreases |again|
  {
    if again != [] {
      assert Resends(w, again)[1..] == Resends(w, again[1..]);
      ResendsDoNothing(Deliver(q, Resends(w, again)[0]), w, again[1..]);
    }
  }

  lemma {:induction false} Enumerate(s: set<Ident>) returns (r: seq<Ident>)
    ensures forall x :: x in r <==> x in s
  {
    if s == {} {
      r := [];
    } else {
      var x :| x in s;
      var rest := Enumerate(s - {x});
      r := [x] + rest;
    }
  }

  lemma OrderIsDelivery(q: State, w: World, order: seq<Ident>) returns (ops: seq<NetOp>)
    requires AtRest(q) && Sound(q.doc) && Newcomers(q.doc.chars, w)
    requires Complete(Goal(q.doc.chars, w), q.doc.chars, order)
    ensures Delivers(w, ops) && DeliverAll(q, ops).doc == Filled(q.doc, Goal(q.doc.chars, w), order)
  {
    var chars, goal := q.doc.chars, Goal(q.doc.chars, w);
    GoalExtends(chars, w);
    GrownKeeps(goal, chars, order);
    OrderIsDelivered(q, goal, order);
    FilledIsRun(q.doc, goal, order);
    FilledKeeps(q.doc, goal, order);
    var again := Enumerate(w.adds.Keys * chars.Keys);
    ops := Sends(goal, order) + Resends(w, again);
    SendsDeliver(chars, w, order, again);
    DeliverConcat(q, Sends(goal, order), Resends(w, again));
    ParentsKnown(chars, w);
    ResendsDoNothing(DeliverAll(q, Sends(goal, order)), w, again);
  }

  lemma ParentsKnown(chars: Chars, w: World)
    requires Closed(chars, w)
    ensures forall x :: x in w.adds ==> w.adds[x].parent in Goal(chars, w)
  {
    forall x | x in w.adds ensures w.adds[x].parent in Goal(chars, w) {
      assert x in Goal(chars, w) && x != ROOT && Goal(chars, w)[x].parent == w.adds[x].parent;
    }
  }

  lemma SendsDeliver(chars: Chars, w: World, order: seq<Ident>, again: seq<Ident>)
    requires Newcomers(chars, w) && Complete(Goal(chars, w), chars, order)
    requires (forall x :: x in order ==> x in Goal(chars, w)) && forall x :: x in again <==> x in w.adds && x in chars
    ensures Delivers(w, Sends(Goal(chars, w), order) + Resends(w, again))
  {
    var goal := Goal(chars, w);
    var sends, resends := Sends(goal, order), Resends(w, again);
    var ops := sends + resends;
    GoalExtends(chars, w);
    GrownKeeps(goal, chars, order);
    OrderIsNew(goal, chars, order);
    forall i | 0 <= i < |ops| ensures InWorld(w, ops[i]) {
      if i < |order| { assert order[i] in order; } else { assert again[i - |order|] in again; }
    }
    forall x | x in w.adds ensures exists op :: op in ops && op.NetAdd? && op.crdt.who == x {
      if x in chars {
        var i :| 0 <= i < |again| && again[i] == x;
        assert resends[i] in ops;
      } else {
        assert x in order;
        var i :| 0 <= i < |order| && order[i] == x;
        assert sends[i] in ops;
      }
    }
  }

  // ----- The theorem -----

  /** Onto any well-formed file, tombstones and elder siblings in it or not: a closed and anchored
      set of inserts shows one document in every delivery order, repeats included, exactly when any
      two newcomers that can come next commute at every state on the way. */
  lemma OneDocumentFromAnyFileIff(q: State, w: World)
    requires AtRest(q) && Newcomers(q.doc.chars, w)
    ensures Sound(q.doc)
    ensures OneDocument(q, w) <==> AlwaysCommute(q.doc, Goal(q.doc.chars, w))
  {
    var goal := Goal(q.doc.chars, w);
    GoalExtends(q.doc.chars, w);
    OneResultIff(q.doc, goal);
    if OneResult(q.doc, goal) {
      forall ops, ops' | Delivers(w, ops) && Delivers(w, ops')
        ensures DeliverAll(q, ops).doc == DeliverAll(q, ops').doc
      {
        var order := DeliveryIsOrder(q, w, ops);
        var order' := DeliveryIsOrder(q, w, ops');
      }
    } else {
      var order, order' :| Complete(goal, q.doc.chars, order) && Complete(goal, q.doc.chars, order') &&
        Filled(q.doc, goal, order) != Filled(q.doc, goal, order');
      var ops := OrderIsDelivery(q, w, order);
      var ops' := OrderIsDelivery(q, w, order');
    }
  }

  lemma EmptyFileIsAnchored(w: World)
    requires Closed(EMPTY.chars, w) && w.removed == {}
    ensures AllAnchored(EMPTY.chars, w)
  {
    ParentsKnown(EMPTY.chars, w);
    forall x | x in w.adds ensures Anchored(Goal(EMPTY.chars, w), Crdt(x, w.adds[x])) {
      assert Goal(EMPTY.chars, w)[x] == w.adds[x];
    }
  }

  /** Onto a file with only the sentinel, the condition on the pairs is the condition on the tree. */
  lemma CommutingIsClean(w: World)
    requires Closed(EMPTY.chars, w) && w.removed == {}
    ensures Sound(EMPTY)
    ensures AlwaysCommute(EMPTY, Goal(EMPTY.chars, w)) <==> AllClean(EMPTY.chars, w)
  {
    var q := State(EMPTY, 0, Roster(1, map[]), NetSide(map[], []), IdeSide(map[], map[], []), [], true);
    EmptyIsFaithful();
    FaithfulIsWellFormed(EMPTY);
    EmptyFileIsAnchored(w);
    OneDocumentFromAnyFileIff(q, w);
    OneDocumentIff(q, w);
  }
}
