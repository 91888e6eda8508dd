/** Which sets of inserts show one document in every delivery order. */
module EveryOrder {
  import opened Types
  import opened CharTree
  import opened Lists
  import opened Document
  import opened Shape
  import opened TreeOrder
  import opened Walk
  import opened Queue
  import opened Delivery
  import opened Agreement
  import opened Convergence
  import opened Orders

  /** `chars` is part of the tree `goal`, in which nothing is removed. */
  ghost predicate PartOf(goal: Chars, chars: Chars) {
    Extends(goal, chars) && forall x :: x in goal ==> !goal[x].deleted
  }

  lemma NextPartOf(goal: Chars, chars: Chars, x: Ident)
    requires PartOf(goal, chars) && Next(goal, chars, x)
    ensures PartOf(goal, chars[x := goal[x]]) && x != ROOT
  {
    NextExtends(goal, chars, x);
  }

  // ----- Youngest siblings first -----

  ghost predicate YoungestFirst(goal: Chars, chars: Chars) {
    forall x, s :: x in goal && x !in chars && s in chars && s != ROOT && chars[s].parent == goal[x].parent ==>
      Outranks(x, s)
  }

  ghost predicate Trails(m: Ident, s: set<Ident>) {
    m in s && forall y :: y in s && y != m ==> Outranks(y, m)
  }

  lemma HasYoungest(s: set<Ident>)
    requires s != {}
    ensures exists m :: Trails(m, s)
  {
    var x :| x in s;
    if s == {x} {
      assert Trails(x, s);
    } else {
      HasYoungest(s - {x});
      var m :| Trails(m, s - {x});
      assert forall y :: y in s ==> y == x || y in s - {x};
      if Outranks(m, x) { assert Trails(x, s); } else { assert Trails(m, s); }
    }
  }

  /** With only younger siblings present, a newcomer under a live parent lands in place. */
  lemma YoungestIsInPlace(goal: Chars, chars: Chars, x: Ident)
    requires PartOf(goal, chars) && YoungestFirst(goal, chars) && Next(goal, chars, x)
    ensures InPlace(chars, Planned(goal, x))
  {
    var p := goal[x].parent;
    forall t | t in Children(chars, p) ensures !Outranks(t, x) { assert Outranks(x, t); }
    CleanIsInPlace(chars, Planned(goal, x));
  }

  /** The youngest of the siblings that are missing under one parent. */
  lemma YoungestNext(goal: Chars, chars: Chars, z: Ident) returns (x: Ident)
    requires PartOf(goal, chars) && YoungestFirst(goal, chars) && z in goal && z !in chars
    ensures Next(goal, chars, x) && YoungestFirst(goal, chars[x := goal[x]])
  {
    var y := SomethingIsNext(goal, chars, z);
    var missing := set v | v in goal && v !in chars && goal[v].parent == goal[y].parent;
    assert y in missing;
    HasYoungest(missing);
    x :| Trails(x, missing);
    forall v, s | v in goal && v !in chars[x := goal[x]] && s in chars[x := goal[x]] && s != ROOT &&
      chars[x := goal[x]][s].parent == goal[v].parent
      ensures Outranks(v, s)
    {
      if s == x { assert v in missing; }
    }
  }

  lemma FirstInPlace(d: Doc, goal: Chars, x: Ident, rest: seq<Ident>)
    requires Sound(d) && PartOf(goal, d.chars) && Next(goal, d.chars, x) && InPlace(d.chars, Planned(goal, x))
    requires (forall y :: y in rest ==> y in goal) && RunInPlace(Step(d, Insert(Planned(goal, x))), Inserts(goal, rest))
    ensures forall y :: y in [x] + rest ==> y in goal
    ensures RunInPlace(d, Inserts(goal, [x] + rest))
  {
    InsertsFirst(goal, x, rest);
  }

  /** One more node, youngest siblings first: it lands in place, and the rest can follow. */
  lemma YoungestStep(d: Doc, goal: Chars, z: Ident) returns (x: Ident)
    requires Sound(d) && PartOf(goal, d.chars) && YoungestFirst(goal, d.chars) && z in goal && z !in d.chars
    ensures Next(goal, d.chars, x) && InPlace(d.chars, Planned(goal, x))
    ensures var d' := Step(d, Insert(Planned(goal, x)));
      d'.chars == d.chars[x := goal[x]] && PartOf(goal, d'.chars) && YoungestFirst(goal, d'.chars) &&
      |goal.Keys - d'.chars.Keys| < |goal.Keys - d.chars.Keys|
  {
    x := YoungestNext(goal, d.chars, z);
    NextPartOf(goal, d.chars, x);
    FewerMissing(goal, d.chars, x);
    StepGrows(d, goal, x);
    YoungestIsInPlace(goal, d.chars, x);
  }

  lemma {:induction false} YoungestOrder(d: Doc, goal: Chars) returns (order: seq<Ident>)
    requires Sound(d) && PartOf(goal, d.chars) && YoungestFirst(goal, d.chars)
    ensures ParentsFirst(goal, d.chars, order) && Grown(goal, d.chars, order) == goal
    ensures (forall x :: x in order ==> x in goal) && RunInPlace(d, Inserts(goal, order))
    decreases |goal.Keys - d.chars.Keys|
  {
    if z :| z in goal && z !in d.chars {
      var x := YoungestStep(d, goal, z);
      var rest := YoungestOrder(Step(d, Insert(Planned(goal, x))), goal);
      FirstInPlace(d, goal, x, rest);
      FirstGrows(goal, d.chars, x, rest);
      order := [x] + rest;
    } else {
      order := [];
      assert d.chars == goal;
    }
  }

  // ----- A bad pair, elder first -----

  /** `v` and what lies above it, and nothing else. */
  lemma {:induction false} BringIn(goal: Chars, chars: Chars, v: Ident) returns (order: seq<Ident>)
    requires PartOf(goal, chars) && v in goal
    ensures ParentsFirst(goal, chars, order) && v in Grown(goal, chars, order)
    ensures forall x :: x in order ==> x in Path(goal, v)
    decreases Ranks(goal)[v]
  {
    if v in chars {
      order := [];
    } else {
      var above := BringIn(goal, chars, goal[v].parent);
      GrownKeeps(goal, chars, above);
      if v in above {
        order := above;
      } else {
        var one := [v];
        assert one[1..] == [];
        Continues(goal, chars, above, one);
        order := above + one;
        GrownKeeps(goal, chars, order);
      }
    }
  }

  /** `x` lands out of place once its elder sibling `t` and a node `v` at or right below `t` are there. */
  ghost predicate BadPair(goal: Chars, x: Ident, t: Ident, v: Ident)
    requires x in goal
  {
    && x != ROOT && t in Children(goal, goal[x].parent) && Outranks(t, x)
    && if v == t then IsLineBreak(goal[x].value) || Breaks(goal, t) else v in Children(goal, t)
  }

  lemma UncleanHasBadPair(goal: Chars, x: Ident) returns (t: Ident, v: Ident)
    requires Rooted(goal) && x in goal && x != ROOT && (forall y :: y in goal ==> !goal[y].deleted)
    requires !Clean(goal, Planned(goal, x))
    ensures BadPair(goal, x, t, v)
  {
    var p := goal[x].parent;
    if IsLineBreak(goal[x].value) {
      t :| t in Children(goal, p) && Outranks(t, x);
      v := t;
    } else {
      t :| t in Children(goal, p) && Outranks(t, x) && (Children(goal, t) != {} || Breaks(goal, t));
      v := t;
      if !Breaks(goal, t) {
        v :| v in Children(goal, t);
        ChildIsOther(goal, t, v);
      }
    }
  }

  lemma ChildIsOther(chars: Chars, t: Ident, v: Ident)
    requires Rooted(chars) && v in Children(chars, t)
    ensures v != t
  {
    assert Ranks(chars)[chars[v].parent] < Ranks(chars)[v];
  }

  lemma BadPairPaths(goal: Chars, x: Ident, t: Ident, v: Ident)
    requires Rooted(goal) && x in goal && BadPair(goal, x, t, v)
    ensures v in goal && x !in Path(goal, v)
    ensures Path(goal, v) == Path(goal, goal[x].parent) + (if v == t then [t] else [t, v])
  {
    var p := goal[x].parent;
    assert Path(goal, t) == Path(goal, p) + [t] && Path(goal, x) == Path(goal, p) + [x];
    if v != t { assert Path(goal, v) == Path(goal, p) + [t] + [v]; }
    var pp, pv := Path(goal, p), Path(goal, v);
    forall k | 0 <= k < |pv| ensures pv[k] != x {
      PathStep(goal, v, k);
      assert |Path(goal, pv[k])| == k + 1 && |Path(goal, x)| == |pp| + 1;
      assert k == |pp| ==> pv[k] == t;
    }
  }

  lemma BadPairIsOutOfPlace(goal: Chars, chars: Chars, x: Ident, t: Ident, v: Ident)
    requires PartOf(goal, chars) && x in goal && BadPair(goal, x, t, v) && v in chars && t in chars
    requires goal[x].parent in chars
    ensures !InPlace(chars, Planned(goal, x))
  {
    var p := goal[x].parent;
    PathsFrame(chars, goal);
    BadPairPaths(goal, x, t, v);
    var pp, tail := Path(chars, p), if v == t then [t] else [t, v];
    assert Path(chars, v) == pp + tail && tail[0] == t && t != x;
    PrecedesCommon(pp, tail, [x]);
    assert pp < Path(chars, v);
    assert Crowds(chars, v, p, x);
    if v != t { assert Path(chars, chars[v].parent) == Path(chars, t) == pp + [t]; }
  }

  lemma {:induction false} InPlaceTail(d: Doc, ops: seq<Op>, more: seq<Op>)
    requires Sound(d) && RunInPlace(d, ops + more)
    ensures RunInPlace(Run(d, ops), more)
    decreases |ops|
  {
    if ops == [] {
      assert ops + more == more;
    } else {
      assert (ops + more)[0] == ops[0] && (ops + more)[1..] == ops[1..] + more;
      InPlaceTail(Step(d, ops[0]), ops[1..], more);
    }
  }

  /** Everything from the root down to the bad pair, then the younger sibling, then the rest. */
  lemma BadOrder(goal: Chars, x: Ident, t: Ident, v: Ident) returns (order: seq<Ident>)
    requires Sound(EMPTY) && PartOf(goal, EMPTY.chars) && x in goal && BadPair(goal, x, t, v)
    ensures ParentsFirst(goal, EMPTY.chars, order) && Grown(goal, EMPTY.chars, order) == goal
    ensures (forall y :: y in order ==> y in goal) && !RunInPlace(EMPTY, Inserts(goal, order))
  {
    BadPairPaths(goal, x, t, v);
    var head := BringIn(goal, EMPTY.chars, v);
    var chars := Grown(goal, EMPTY.chars, head);
    GrownKeeps(goal, EMPTY.chars, head);
    AncestorsRecorded(goal, chars, x, t, v);
    assert Next(goal, chars, x);
    NextPartOf(goal, chars, x);
    var tail := AnyCompletion(goal, chars[x := goal[x]]);
    var more := [x] + tail;
    assert more[1..] == tail;
    Continues(goal, EMPTY.chars, head, more);
    order := head + more;
    GrownKeeps(goal, EMPTY.chars, order);
    OutOfPlaceRun(goal, head, x, t, v, more);
  }

  lemma AncestorsRecorded(goal: Chars, chars: Chars, x: Ident, t: Ident, v: Ident)
    requires PartOf(goal, chars) && x in goal && BadPair(goal, x, t, v) && v in chars
    ensures t in chars && goal[x].parent in chars
  {
    assert v != t ==> chars[v].parent == t;
    assert t != ROOT && chars[t].parent == goal[x].parent;
  }

  lemma OutOfPlaceRun(goal: Chars, head: seq<Ident>, x: Ident, t: Ident, v: Ident, more: seq<Ident>)
    requires Sound(EMPTY) && PartOf(goal, EMPTY.chars) && x in goal && BadPair(goal, x, t, v) && more != []
    requires more[0] == x
    requires ParentsFirst(goal, EMPTY.chars, head) && forall y :: y in head + more ==> y in goal
    requires var chars := Grown(goal, EMPTY.chars, head);
      v in chars && t in chars && goal[x].parent in chars && x !in chars
    ensures !RunInPlace(EMPTY, Inserts(goal, head + more))
  {
    GrownKeeps(goal, EMPTY.chars, head);
    OrderIsRun(EMPTY, goal, head);
    InsertsConcat(goal, head, more);
    BadPairIsOutOfPlace(goal, Grown(goal, EMPTY.chars, head), x, t, v);
    StartsOutOfPlace(Run(EMPTY, Inserts(goal, head)), goal, x, more);
    if RunInPlace(EMPTY, Inserts(goal, head) + Inserts(goal, more)) {
      InPlaceTail(EMPTY, Inserts(goal, head), Inserts(goal, more));
    }
  }

  lemma StartsOutOfPlace(d: Doc, goal: Chars, x: Ident, more: seq<Ident>)
    requires Sound(d) && (forall y :: y in more ==> y in goal) && more != [] && more[0] == x && x in goal
    requires x !in d.chars && goal[x].parent in d.chars && !InPlace(d.chars, Planned(goal, x))
    ensures !RunInPlace(d, Inserts(goal, more))
  {
    assert Inserts(goal, more)[0] == Insert(Planned(goal, x));
    assert !StepInPlace(d, Inserts(goal, more)[0]);
  }

  // ----- The theorem -----

  lemma OrderDelivers(w: World, order: seq<Ident>)
    requires var goal := Goal(EMPTY.chars, w);
      PartOf(goal, EMPTY.chars) && ParentsFirst(goal, EMPTY.chars, order) && Grown(goal, EMPTY.chars, order) == goal
    requires Closed(EMPTY.chars, w) && w.removed == {}
    ensures forall x :: x in order ==> x in Goal(EMPTY.chars, w)
    ensures Delivers(w, Sends(Goal(EMPTY.chars, w), order))
  {
    var goal := Goal(EMPTY.chars, w);
    GrownKeeps(goal, EMPTY.chars, order);
    var ops := Sends(goal, order);
    OrderIsNew(goal, EMPTY.chars, order);
    forall op | op in ops ensures InWorld(w, op) {
      var i :| 0 <= i < |ops| && ops[i] == op;
      assert order[i] in order && goal[order[i]] == w.adds[order[i]];
    }
    forall x | x in w.adds ensures exists op :: op in ops && op.NetAdd? && op.crdt.who == x {
      assert x in goal && x in order;
      var i :| 0 <= i < |order| && order[i] == x;
      assert ops[i] in ops;
    }
  }

  /** Some order ends with the walk of the tree. */
  lemma GoodDelivery(q: State, w: World) returns (ops: seq<NetOp>)
    requires Ready(q) && q.doc == EMPTY && Closed(EMPTY.chars, w) && w.removed == {}
    ensures Delivers(w, ops) && Faithful(DeliverAll(q, ops).doc)
  {
    var goal := Goal(EMPTY.chars, w);
    EmptyIsFaithful();
    var order := YoungestOrder(EMPTY, goal);
    OrderDelivers(w, order);
    OrderIsDelivered(q, goal, order);
    RunIsFaithfulIff(EMPTY, Inserts(goal, order));
    ops := Sends(goal, order);
  }

  /** If some insert is not clean, another order does not. */
  lemma BadDelivery(q: State, w: World, x: Ident) returns (ops: seq<NetOp>)
    requires Ready(q) && q.doc == EMPTY && Closed(EMPTY.chars, w) && w.removed == {}
    requires x in w.adds && w.adds[x].parent in Goal(EMPTY.chars, w) && !Clean(Goal(EMPTY.chars, w), Crdt(x, w.adds[x]))
    ensures Delivers(w, ops) && !Faithful(DeliverAll(q, ops).doc)
  {
    var goal := Goal(EMPTY.chars, w);
    EmptyIsFaithful();
    assert goal[x] == w.adds[x];
    var t, v := UncleanHasBadPair(goal, x);
    var order := BadOrder(goal, x, t, v);
    OrderDelivers(w, order);
    OrderIsDelivered(q, goal, order);
    OrderIsRun(EMPTY, goal, order);
    AddsFaithfulIff(EMPTY, Inserts(goal, order));
    ops := Sends(goal, order);
  }

  /** Whatever the network reorders or repeats, the same document. */
  ghost predicate OneDocument(q: State, w: World)
    requires Sound(q.doc)
  {
    forall ops, ops' :: Delivers(w, ops) && Delivers(w, ops') ==> DeliverAll(q, ops).doc == DeliverAll(q, ops').doc
  }

  lemma CleanIsOneDocument(q: State, w: World)
    requires Ready(q) && Closed(q.doc.chars, w) && AllClean(q.doc.chars, w)
    ensures OneDocument(q, w)
  {
    forall ops, ops' | Delivers(w, ops) && Delivers(w, ops') ensures DeliverAll(q, ops).doc == DeliverAll(q, ops').doc {
      CleanReplicasConverge(q, w, ops, q, w, ops');
    }
  }

  /** A closed set of inserts shows one document in every delivery order, repeats included, exactly
      when each of its inserts is clean in the final tree. */
  lemma OneDocumentIff(q: State, w: World)
    requires Ready(q) && q.doc == EMPTY && Closed(EMPTY.chars, w) && w.removed == {}
    ensures OneDocument(q, w) <==> AllClean(EMPTY.chars, w)
  {
    if AllClean(EMPTY.chars, w) {
      CleanIsOneDocument(q, w);
    } else {
      var x := SomeUnclean(w);
      var good := GoodDelivery(q, w);
      var bad := BadDelivery(q, w, x);
    }
  }

  lemma SomeUnclean(w: World) returns (x: Ident)
    requires Closed(EMPTY.chars, w) && w.removed == {} && !AllClean(EMPTY.chars, w)
    ensures x in w.adds && w.adds[x].parent in Goal(EMPTY.chars, w) && !Clean(Goal(EMPTY.chars, w), Crdt(x, w.adds[x]))
  {
    var goal := Goal(EMPTY.chars, w);
    forall y | y in w.adds ensures w.adds[y].parent in goal && Anchored(goal, Crdt(y, w.adds[y])) {
      assert goal[y] == w.adds[y] && y != ROOT;
    }
    x :| x in w.adds && !Clean(goal, Crdt(x, w.adds[x]));
  }

  // ----- Why this stops where removes come in -----

  /** Peer 1 types "ab", peer 2 concurrently "c" and takes it back. */
  const TAKEN_BACK: World := World(map[A.who := A.relation, B.who := B.relation, C.who := C.relation], {C.who})

  lemma TakenBackIsClosed()
    ensures Closed(EMPTY.chars, TAKEN_BACK)
  {
    EmptyIsFaithful();
    var goal := Goal(EMPTY.chars, TAKEN_BACK);
    assert IsRank(goal, map[ROOT := 0, A.who := 1, B.who := 2, C.who := 1]);
  }

  lemma TakenBackIsUnclean()
    requires Closed(EMPTY.chars, TAKEN_BACK)
    ensures AllAnchored(EMPTY.chars, TAKEN_BACK) && !AllClean(EMPTY.chars, TAKEN_BACK)
  {
    var goal := Goal(EMPTY.chars, TAKEN_BACK);
    assert goal[A.who] == A.relation && goal[B.who] == B.relation && goal[ROOT] == ROOT_RELATION;
    assert A.who in Children(goal, ROOT) && B.who in Children(goal, A.who);
    assert !EldersAreLeaves(goal, ROOT, C.who);
    assert C.who in TAKEN_BACK.adds && !Clean(goal, Crdt(C.who, TAKEN_BACK.adds[C.who]));
  }

  lemma ThreeInOrder(f: seq<Ident>, x: Ident, y: Ident)
    requires Distinct(f) && f != [] && f[0] == ROOT && x != ROOT && y != ROOT && x != y && Ahead(f, x, y)
    requires forall z :: z in f ==> z == ROOT || z == x || z == y
    ensures f == [ROOT, x, y]
  {
    var i, j := IndexOf(f, x), IndexOf(f, y);
    assert |f| > 3 ==> f[1] != f[2] && f[2] != f[3] && f[1] != f[3];
    forall k | 0 < k < |f| ensures f[k] == x || f[k] == y { assert f[k] in f && f[0] != f[k]; }
    assert 0 < i < j < |f|;
  }

  lemma ParentInFront(d: Doc, y: Ident)
    requires WellFormed(d) && y in d.flat && y in d.chars && y != ROOT && d.chars[y].parent in d.flat
    ensures Ahead(d.flat, d.chars[y].parent, y)
  {
    var i, j := IndexOf(d.flat, d.chars[y].parent), IndexOf(d.flat, y);
    AboveIsPathOfParent(d.chars, d.chars[y].parent, y);
    LeadAt(d, j, i);
  }

  /** A well-formed list of the sentinel, "a" and "b" under "a". */
  lemma ChainIsOnlyList(d: Doc)
    requires WellFormed(d) && d.chars == Goal(EMPTY.chars, TAKEN_BACK)
    ensures d.flat == [ROOT, A.who, B.who]
  {
    assert d.chars[A.who] == A.relation && d.chars[B.who] == B.relation;
    assert C.who in d.chars && C.who in TAKEN_BACK.removed && d.chars[C.who].deleted;
    assert forall x :: x in d.chars ==> x == ROOT || x == A.who || x == B.who || x == C.who;
    ParentInFront(d, B.who);
    ThreeInOrder(d.flat, A.who, B.who);
  }

  /** Delivered last, "c" lands between "a" and "b". */
  lemma LastIsOutOfPlace()
    ensures Sound(EMPTY) && !RunInPlace(EMPTY, [Insert(A), Insert(B), Insert(C)])
  {
    var ops := [Insert(A), Insert(B), Insert(C)];
    EmptyIsFaithful();
    AloneLandsA();
    LastLandsBetween(Step(EMPTY, Insert(A)));
    RunThree(EMPTY, Insert(A), Insert(B), Insert(C));
    RunIsFaithfulIff(EMPTY, ops);
    BetweenIsOutOfOrder(Run(EMPTY, ops));
  }

  lemma BetweenIsOutOfOrder(d: Doc)
    requires d.flat == [ROOT, A.who, C.who, B.who]
    requires A.who in d.chars && B.who in d.chars && C.who in d.chars
    requires d.chars[A.who] == A.relation && d.chars[B.who] == B.relation && d.chars[C.who] == C.relation
    ensures !Faithful(d)
  {
    if Rooted(d.chars) {
      var root: seq<Ident> := [ROOT];
      assert Path(d.chars, ROOT) == root && Path(d.chars, A.who) == root + [A.who] &&
        Path(d.chars, C.who) == root + [C.who];
      assert Path(d.chars, B.who) == root + [A.who] + [B.who] == root + [A.who, B.who];
      PrecedesCommon(root, [C.who], [A.who, B.who]);
      assert !InOrder(d.chars)(d.flat[2], d.flat[3]);
    }
  }

  /** A remove can hide a misplaced newcomer: this set is not clean, an insert of it lands out of place
      in one order, and yet every delivery order ends with one document. */
  lemma RemoveHidesDisorder(q: State)
    requires Ready(q) && q.doc == EMPTY
    ensures Closed(EMPTY.chars, TAKEN_BACK) && !AllClean(EMPTY.chars, TAKEN_BACK)
    ensures OneDocument(q, TAKEN_BACK)
    ensures !RunInPlace(EMPTY, [Insert(A), Insert(B), Insert(C)])
  {
    LastIsOutOfPlace();
    TakenBackIsClosed();
    TakenBackIsUnclean();
    FaithfulIsWellFormed(EMPTY);
    forall ops, ops' | Delivers(TAKEN_BACK, ops) && Delivers(TAKEN_BACK, ops')
      ensures DeliverAll(q, ops).doc == DeliverAll(q, ops').doc
    {
      TakenBackEndsAs(q, ops);
      TakenBackEndsAs(q, ops');
    }
  }

  lemma TakenBackEndsAs(q: State, ops: seq<NetOp>)
    requires Ready(q) && WellFormed(q.doc) && q.doc == EMPTY && Delivers(TAKEN_BACK, ops)
    requires Closed(EMPTY.chars, TAKEN_BACK) && AllAnchored(EMPTY.chars, TAKEN_BACK)
    ensures DeliverAll(q, ops).doc == Doc(Goal(EMPTY.chars, TAKEN_BACK), [ROOT, A.who, B.who])
  {
    AnyDeliveryOrder(q, TAKEN_BACK, ops);
    ChainIsOnlyList(DeliverAll(q, ops).doc);
  }
}
