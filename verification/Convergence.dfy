/** Sets of operations whose every delivery order shows the same document, and small sets for
    which the order shows. */
module Convergence {
  import opened Types
  import opened CharTree
  import opened Lists
  import opened Document
  import opened Shape
  import opened Commute
  import opened TreeOrder
  import opened Walk
  import opened Queue
  import opened Delivery
  import opened Rows
  import opened SharFileModule

  // ----- Clean adds -----

  /** Every sibling of `x` that outranks it is a childless ordinary character. */
  ghost predicate EldersAreLeaves(chars: Chars, p: Ident, x: Ident) {
    forall t :: t in Children(chars, p) && Outranks(t, x) ==> Children(chars, t) == {} && !Breaks(chars, t)
  }

  /** So it is at each tombstoned link of the climb from `c`. */
  ghost predicate CleanClimb(chars: Chars, c: Ident)
    requires Rooted(chars) && c in chars
    decreases Ranks(chars)[c]
  {
    chars[c].deleted ==> EldersAreLeaves(chars, chars[c].parent, c) && CleanClimb(chars, chars[c].parent)
  }

  ghost predicate Clean(chars: Chars, crdt: Crdt)
    requires Rooted(chars) && crdt.relation.parent in chars
  {
    var p := crdt.relation.parent;
    Anchored(chars, crdt) &&
    if IsLineBreak(crdt.relation.value) then forall t :: t in Children(chars, p) ==> !Outranks(t, crdt.who)
    else EldersAreLeaves(chars, p, crdt.who) && CleanClimb(chars, p)
  }

  /** A node below `p` that belongs before `x` hangs from a sibling that outranks `x`. */
  lemma ElderBranch(chars: Chars, y: Ident, p: Ident, x: Ident) returns (t: Ident)
    requires Rooted(chars) && p in chars && y in chars
    requires Path(chars, p) < Path(chars, y) && Precedes(Path(chars, y), Path(chars, p) + [x])
    ensures t in Children(chars, p) && Outranks(t, x) && Path(chars, t) <= Path(chars, y)
  {
    t := BranchOf(chars, p, y);
    var pp, py := Path(chars, p), Path(chars, y);
    assert pp + py[|pp|..] == py;
    PrecedesCommon(pp, py[|pp|..], [x]);
    FirstOutranks(py[|pp|..], x);
  }

  lemma FirstOutranks(s: seq<Ident>, x: Ident)
    requires s != [] && Precedes(s, [x])
    ensures Outranks(s[0], x)
  {}

  lemma {:induction false} CleanCrowdIsPlain(chars: Chars, p: Ident, x: Ident, y: Ident)
    requires Rooted(chars) && p in chars && Crowds(chars, y, p, x)
    requires x !in chars || (chars[x].deleted && x != ROOT && chars[x].parent == p)
    requires EldersAreLeaves(chars, p, x) && CleanClimb(chars, p)
    ensures Plain(chars, y, p)
    decreases Ranks(chars)[p]
  {
    var pp, py := Path(chars, p), Path(chars, y);
    if pp < py {
      var t := ElderBranch(chars, y, p, x);
      if Path(chars, t) < py { var _ := BranchOf(chars, t, y); }
      assert y == py[|py| - 1] && t == Path(chars, t)[|Path(chars, t)| - 1];
    } else {
      NotBelowIsBefore(chars, y, p, x);
      HomeIsNearest(chars, p);
      CleanCrowdIsPlain(chars, chars[p].parent, p, y);
    }
  }

  /** What crowds a child of `p` without being below `p` crowds the tombstone `p` itself. */
  lemma NotBelowIsBefore(chars: Chars, y: Ident, p: Ident, x: Ident)
    requires Rooted(chars) && p in chars && Crowds(chars, y, p, x) && !(Path(chars, p) < Path(chars, y))
    ensures chars[p].deleted && chars[p].parent in chars && Crowds(chars, y, chars[p].parent, p)
  {
    var pp, py := Path(chars, p), Path(chars, y);
    assert chars[p].deleted;
    assert pp == Path(chars, chars[p].parent) + [p];
    assert y != p;
    assert pp[|pp| - 1] == p && py[|py| - 1] == y;
    PrecedesStrict(pp, py);
    if Precedes(pp, py) { Sandwich(pp, py, pp + [x]); }
  }

  /** A clean add lands in place. */
  lemma CleanIsInPlace(chars: Chars, crdt: Crdt)
    requires Rooted(chars) && Lands(chars, crdt) && Clean(chars, crdt)
    ensures InPlace(chars, crdt)
  {
    var p, x := crdt.relation.parent, crdt.who;
    forall y | Crowds(chars, y, p, x) ensures Plain(chars, y, p) && !IsLineBreak(crdt.relation.value) {
      if IsLineBreak(crdt.relation.value) {
        var t := ElderBranch(chars, y, p, x);
      } else {
        CleanCrowdIsPlain(chars, p, x, y);
      }
    }
  }

  // ----- Clean runs -----

  ghost predicate StepClean(d: Doc, op: Op)
    requires Sound(d)
  {
    op.Insert? && Lands(d.chars, op.crdt) ==> Clean(d.chars, op.crdt)
  }

  ghost predicate RunClean(d: Doc, ops: seq<Op>)
    requires Sound(d)
    decreases |ops|
  {
    ops == [] || (StepClean(d, ops[0]) && RunClean(Step(d, ops[0]), ops[1..]))
  }

  lemma {:induction false} CleanRunIsInPlace(d: Doc, ops: seq<Op>)
    requires Sound(d) && RunClean(d, ops)
    ensures RunInPlace(d, ops)
    decreases |ops|
  {
    if ops != [] {
      if ops[0].Insert? && Lands(d.chars, ops[0].crdt) { CleanIsInPlace(d.chars, ops[0].crdt); }
      CleanRunIsInPlace(Step(d, ops[0]), ops[1..]);
    }
  }

  /** After every run of clean inserts and any removes, the list is the preorder walk of the tree. */
  lemma CleanRunIsWalk(d: Doc, ops: seq<Op>)
    requires Faithful(d) && Sound(d) && RunClean(d, ops)
    ensures Rooted(Run(d, ops).chars) && Run(d, ops).flat == WalkFrom(Run(d, ops).chars, ROOT)
  {
    CleanRunIsInPlace(d, ops);
    RunIsFaithfulIff(d, ops);
    FaithfulIsWalk(Run(d, ops));
  }

  /** Replicas that reach one tree by any two clean runs compare equal, rows included. */
  lemma CleanRunsConverge(d: Doc, ops: seq<Op>, rows: Projection, d': Doc, ops': seq<Op>, rows': Projection)
    requires Faithful(d) && Sound(d) && RunClean(d, ops) && Represents(rows, Run(d, ops))
    requires Faithful(d') && Sound(d') && RunClean(d', ops') && Represents(rows', Run(d', ops'))
    requires Run(d, ops).chars == Run(d', ops').chars
    ensures Run(d, ops) == Run(d', ops') && rows == rows'
  {
    CleanRunIsInPlace(d, ops);
    CleanRunIsInPlace(d', ops');
    Convergence(d, ops, d', ops');
    SameDocumentSameRows(rows, Run(d, ops), rows', Run(d', ops'));
  }

  // ----- Clean sets -----

  /** Every new identity is clean in the final tree. */
  ghost predicate AllClean(chars: Chars, w: World)
    requires Closed(chars, w)
  {
    AllAnchored(chars, w) && forall x :: x in w.adds && x !in chars ==> Clean(Goal(chars, w), Crdt(x, w.adds[x]))
  }

  ghost predicate Earlier(chars: Chars, goal: Chars) {
    forall x :: x in chars ==>
      x in goal && chars[x].(deleted := false) == goal[x].(deleted := false) && (chars[x].deleted ==> goal[x].deleted)
  }

  lemma FewerElders(chars: Chars, goal: Chars, p: Ident, x: Ident)
    requires Earlier(chars, goal) && EldersAreLeaves(goal, p, x)
    ensures EldersAreLeaves(chars, p, x)
  {
    forall y, q | y in Children(chars, q) ensures y in Children(goal, q) && (Breaks(chars, y) <==> Breaks(goal, y)) {
      assert chars[y].(deleted := false) == goal[y].(deleted := false);
    }
    forall t | t in Children(chars, p) && Outranks(t, x) ensures Children(chars, t) == {} && !Breaks(chars, t) {
      assert t in Children(goal, p);
      assert Children(chars, t) <= Children(goal, t);
    }
  }

  lemma {:induction false} ClimbEarlier(chars: Chars, goal: Chars, c: Ident)
    requires Rooted(chars) && Rooted(goal) && Earlier(chars, goal) && c in chars && CleanClimb(goal, c)
    ensures CleanClimb(chars, c)
    decreases Ranks(chars)[c]
  {
    if chars[c].deleted {
      assert chars[c].(deleted := false) == goal[c].(deleted := false);
      FewerElders(chars, goal, chars[c].parent, c);
      ClimbEarlier(chars, goal, chars[c].parent);
    }
  }

  /** Clean in the final tree is in place on the way. */
  lemma InPlaceOnTheWay(chars0: Chars, w: World, chars: Chars, crdt: Crdt)
    requires Closed(chars0, w) && AllClean(chars0, w) && Partial(chars0, w, chars) && Rooted(chars)
    requires crdt.who in w.adds && crdt.relation == w.adds[crdt.who] && Lands(chars, crdt)
    ensures InPlace(chars, crdt)
  {
    var goal, p, x := Goal(chars0, w), crdt.relation.parent, crdt.who;
    AnchoredOnTheWay(chars0, w, chars, crdt);
    assert Clean(goal, crdt) && Earlier(chars, goal);
    if IsLineBreak(crdt.relation.value) {
      forall t | t in Children(chars, p) ensures !Outranks(t, x) {
        assert chars[t].(deleted := false) == goal[t].(deleted := false);
        assert t in Children(goal, p);
      }
    } else {
      FewerElders(chars, goal, p, x);
      ClimbEarlier(chars, goal, p);
    }
    CleanIsInPlace(chars, crdt);
  }

  lemma AddFaithful(chars0: Chars, w: World, q: State, crdt: Crdt, row: nat)
    requires Closed(chars0, w) && AllClean(chars0, w) && Partial(chars0, w, q.doc.chars)
    requires InWorld(w, NetAdd(crdt, row)) && Faithful(q.doc)
    ensures Sound(q.doc) && Faithful(NetLand(q, crdt, row).doc)
  {
    if Lands(q.doc.chars, crdt) {
      InPlaceOnTheWay(chars0, w, q.doc.chars, crdt);
      InPlaceAddIsFaithful(q.doc, crdt);
    }
  }

  lemma ItemFaithful(chars0: Chars, w: World, q: State, log0: seq<Event>, op: NetOp)
    requires Closed(chars0, w) && AllClean(chars0, w) && OnTheWay(chars0, w, q, log0) && InWorld(w, op)
    requires Faithful(q.doc)
    ensures Faithful(NetItem(q, op).doc)
  {
    match op
    case NetAdd(crdt, row) => AddFaithful(chars0, w, q, crdt, row);
    case NetRemove(who, row) => RemoveIsFaithful(q.doc, who);
  }

  lemma {:induction false} DrainFaithful(chars0: Chars, w: World, q: State, log0: seq<Event>)
    requires Closed(chars0, w) && AllClean(chars0, w) && Sound(q.doc) && OnTheWay(chars0, w, q, log0) && Faithful(q.doc)
    ensures Faithful(DrainNet(q).doc)
    decreases NetPending(q), |q.net.work|
  {
    if q.net.work != [] {
      var q1, item := q.(net := q.net.(work := q.net.work[1..])), q.net.work[0];
      assert item in q.net.work && OnTheWay(chars0, w, q1, log0);
      ItemFaithful(chars0, w, q1, log0, item);
      ItemOnTheWay(chars0, w, q1, log0, item);
      DrainFaithful(chars0, w, PopNet(q), log0);
    }
  }

  lemma {:induction false} DeliverAllFaithful(chars0: Chars, w: World, q: State, log0: seq<Event>, ops: seq<NetOp>)
    requires Closed(chars0, w) && AllClean(chars0, w) && Sound(q.doc) && OnTheWay(chars0, w, q, log0) && Faithful(q.doc)
    requires q.net.work == [] && forall op :: op in ops ==> InWorld(w, op)
    ensures Faithful(DeliverAll(q, ops).doc)
    decreases |ops|
  {
    if ops != [] {
      DeliverIsDrain(q, ops[0]);
      ItemFaithful(chars0, w, q, log0, ops[0]);
      ItemOnTheWay(chars0, w, q, log0, ops[0]);
      DrainFaithful(chars0, w, NetItem(q, ops[0]), log0);
      DeliverOnTheWay(chars0, w, q, log0, ops[0]);
      DeliverAllFaithful(chars0, w, Deliver(q, ops[0]), log0, ops[1..]);
    }
  }

  /** A replica with nothing pending, whose list is the walk of its tree. */
  ghost predicate Ready(q: State) {
    Faithful(q.doc) && Sound(q.doc) && q.anchored && q.net.backlog == map[] && q.net.work == []
  }

  lemma CleanDeliveryIsWalk(q: State, w: World, ops: seq<NetOp>)
    requires Ready(q) && Closed(q.doc.chars, w) && AllClean(q.doc.chars, w) && Delivers(w, ops)
    ensures Faithful(DeliverAll(q, ops).doc) && DeliverAll(q, ops).doc.chars == Goal(q.doc.chars, w)
  {
    FaithfulIsWellFormed(q.doc);
    assert OnTheWay(q.doc.chars, w, q, q.log);
    DeliverAllFaithful(q.doc.chars, w, q, q.log, ops);
    AnyDeliveryOrder(q, w, ops);
  }

  /** Strong eventual consistency for clean sets: replicas that are owed sets leading to one tree
      show the same document, whatever the network reorders or repeats on either side. */
  lemma CleanReplicasConverge(q: State, w: World, ops: seq<NetOp>, q': State, w': World, ops': seq<NetOp>)
    requires Ready(q) && Closed(q.doc.chars, w) && AllClean(q.doc.chars, w) && Delivers(w, ops)
    requires Ready(q') && Closed(q'.doc.chars, w') && AllClean(q'.doc.chars, w') && Delivers(w', ops')
    requires Goal(q.doc.chars, w) == Goal(q'.doc.chars, w')
    ensures DeliverAll(q, ops).doc == DeliverAll(q', ops').doc
  {
    CleanDeliveryIsWalk(q, w, ops);
    CleanDeliveryIsWalk(q', w', ops');
    FaithfulIsUnique(DeliverAll(q, ops).doc, DeliverAll(q', ops').doc);
  }

  // ----- Where the order shows -----

  const EMPTY: Doc := Doc(map[ROOT := ROOT_RELATION], [ROOT])

  function Char(id: u32, peer: u32, value: char, parent: Ident): Crdt {
    Crdt(Ident(id, peer), Relation(value, parent, false))
  }

  lemma EmptyIsFaithful()
    ensures Faithful(EMPTY) && Sound(EMPTY)
  {
    assert IsRank(EMPTY.chars, map[ROOT := 0]);
  }

  lemma {:induction false} ScanIs(d: Doc, i: nat, r: nat, p: Ident, me: Ident)
    requires i <= r <= |d.flat| && (r < |d.flat| ==> !Skips(d.chars, d.flat[r], p, me))
    requires forall k :: i <= k < r ==> Skips(d.chars, d.flat[k], p, me)
    ensures Scan(d, i, p, me) == r
    decreases r - i
  {
    if i < r { ScanIs(d, i + 1, r, p, me); }
  }

  /** An ordinary character under the live element at index `i`, behind the elders up to `r`. */
  lemma LandsAt(d: Doc, crdt: Crdt, i: nat, r: nat)
    requires Sound(d) && Distinct(d.flat) && Lands(d.chars, crdt) && !IsLineBreak(crdt.relation.value)
    requires i < r <= |d.flat| && d.flat[i] == crdt.relation.parent && !d.chars[crdt.relation.parent].deleted
    requires r < |d.flat| ==> !Skips(d.chars, d.flat[r], crdt.relation.parent, crdt.who)
    requires forall k :: i < k < r ==> Skips(d.chars, d.flat[k], crdt.relation.parent, crdt.who)
    ensures Step(d, Insert(crdt)) == Doc(d.chars[crdt.who := crdt.relation], InsertAt(d.flat, r, crdt.who))
  {
    IndexUnique(d.flat, i);
    ScanIs(d, i + 1, r, crdt.relation.parent, crdt.who);
  }

  const A: Crdt := Char(1, 1, 'a', ROOT)
  const B: Crdt := Char(2, 1, 'b', Ident(1, 1))
  const C: Crdt := Char(1, 2, 'c', ROOT)

  lemma AloneLandsA()
    ensures Sound(EMPTY) && Step(EMPTY, Insert(A)) == Doc(EMPTY.chars[A.who := A.relation], [ROOT, A.who])
  {
    EmptyIsFaithful();
    LandsAt(EMPTY, A, 0, 1);
  }

  lemma LastLandsBetween(d: Doc)
    requires Sound(d) && d == Doc(EMPTY.chars[A.who := A.relation], [ROOT, A.who])
    ensures var e := Step(d, Insert(B));
      e == Doc(d.chars[B.who := B.relation], [ROOT, A.who, B.who]) &&
      Step(e, Insert(C)) == Doc(e.chars[C.who := C.relation], [ROOT, A.who, C.who, B.who])
  {
    LandsAt(d, B, 1, 2);
    BetweenOthers(Step(d, Insert(B)));
  }

  lemma BetweenOthers(e: Doc)
    requires Sound(e) && e == Doc(EMPTY.chars[A.who := A.relation][B.who := B.relation], [ROOT, A.who, B.who])
    ensures Step(e, Insert(C)) == Doc(e.chars[C.who := C.relation], [ROOT, A.who, C.who, B.who])
  {
    LandsAt(e, C, 0, 2);
  }

  lemma EarlierLandsBehind(d: Doc)
    requires Sound(d) && d == Doc(EMPTY.chars[A.who := A.relation], [ROOT, A.who])
    ensures var e := Step(d, Insert(C));
      e == Doc(d.chars[C.who := C.relation], [ROOT, A.who, C.who]) &&
      Step(e, Insert(B)) == Doc(e.chars[B.who := B.relation], [ROOT, A.who, B.who, C.who])
  {
    LandsAt(d, C, 0, 2);
    BehindFirst(Step(d, Insert(C)));
  }

  lemma BehindFirst(e: Doc)
    requires Sound(e) && e == Doc(EMPTY.chars[A.who := A.relation][C.who := C.relation], [ROOT, A.who, C.who])
    ensures Step(e, Insert(B)) == Doc(e.chars[B.who := B.relation], [ROOT, A.who, B.who, C.who])
  {
    LandsAt(e, B, 1, 2);
  }

  /** Peer 1 types "ab", peer 2 concurrently "c", both into an empty file. Of the two first characters,
      which have equal ids, the smaller peer's leads. If "c" is delivered last it lands between "a" and
      "b"; delivered earlier, it ends up behind both. */
  lemma ConcurrentTypingDiverges()
    ensures Sound(EMPTY)
    ensures Run(EMPTY, [Insert(A), Insert(B), Insert(C)]).chars == Run(EMPTY, [Insert(A), Insert(C), Insert(B)]).chars
    ensures Run(EMPTY, [Insert(A), Insert(B), Insert(C)]).flat == [ROOT, A.who, C.who, B.who]
    ensures Run(EMPTY, [Insert(A), Insert(C), Insert(B)]).flat == [ROOT, A.who, B.who, C.who]
  {
    AloneLandsA();
    var d := Step(EMPTY, Insert(A));
    LastLandsBetween(d);
    EarlierLandsBehind(d);
    RunThree(EMPTY, Insert(A), Insert(B), Insert(C));
    RunThree(EMPTY, Insert(A), Insert(C), Insert(B));
    UpdatesSwap(d.chars, B, C);
  }

  lemma RunCons(d: Doc, op: Op, rest: seq<Op>)
    requires Sound(d)
    ensures Run(d, [op] + rest) == Run(Step(d, op), rest)
  {
    assert ([op] + rest)[1..] == rest;
  }

  lemma RunOne(d: Doc, op: Op)
    requires Sound(d)
    ensures Run(d, [op]) == Step(d, op)
  {
    assert [op][1..] == [];
  }

  lemma RunThree(d: Doc, a: Op, b: Op, c: Op)
    requires Sound(d)
    ensures Run(d, [a, b, c]) == Step(Step(Step(d, a), b), c)
  {
    RunCons(d, a, [b] + [c]);
    RunCons(Step(d, a), b, [c]);
    RunOne(Step(Step(d, a), b), c);
    assert [a, b, c] == [a] + ([b] + [c]);
  }

  const P: Crdt := Char(1, 1, 'p', ROOT)
  const N: Crdt := Char(2, 1, '\n', Ident(1, 1))

  lemma DisplacesSentinel(d: Doc, x: Ident)
    requires d.flat == [ROOT] && !Breaks(d.chars, ROOT)
    ensures Displaced(d, 0, x) == [x, ROOT]
  {
    assert RowEnd(d, 1) == 1;
    assert RowEnd(d, 0) == 1;
  }

  lemma BreakUnderTombstone(d: Doc)
    requires Sound(d) && d.flat == [ROOT] && Live(d.chars, ROOT) && !Breaks(d.chars, ROOT) && N.who !in d.chars
    requires P.who in d.chars && d.chars[P.who].deleted && d.chars[P.who].parent == ROOT
    ensures Step(d, Insert(N)) == Doc(d.chars[N.who := N.relation], [N.who, ROOT])
  {
    assert !Skips(d.chars, d.flat[0], ROOT, P.who);
    assert Start(d, P.who) == 0;
    DisplacesSentinel(d, N.who);
  }

  lemma BreakUnderLive(d: Doc)
    requires Sound(d) && d.flat == [ROOT, P.who] && Live(d.chars, P.who) && N.who !in d.chars
    ensures Step(d, Insert(N)) == Doc(d.chars[N.who := N.relation], [ROOT, P.who, N.who])
  {
    IndexUnique(d.flat, 1);
    assert InsertAt(d.flat, 2, N.who) == [ROOT, P.who, N.who];
  }

  lemma EraseSecond(r: Ident, x: Ident, tail: seq<Ident>)
    requires r != x && x !in tail
    ensures Erase([r, x] + tail, x) == [r] + tail
  {
    var s, t := [r, x] + tail, [x] + tail;
    assert t[0] == x && t[1..] == tail && s[0] == r && s[1..] == t;
    assert Erase(tail, x) == tail by { EraseAbsent(tail, x); }
    assert Erase(t, x) == [] + tail == tail;
  }

  lemma RemoveP(d: Doc, tail: seq<Ident>)
    requires Sound(d) && d.flat == [ROOT, P.who] + tail && P.who !in tail && Live(d.chars, P.who)
    ensures Step(d, Delete(P.who)) == Doc(Tombstoned(d.chars, P.who), [ROOT] + tail)
  {
    EraseSecond(ROOT, P.who, tail);
  }

  lemma RemovedFirst(d: Doc)
    requires Sound(d) && d == Doc(EMPTY.chars[P.who := P.relation], [ROOT, P.who])
    ensures Step(Step(d, Delete(P.who)), Insert(N)) ==
      Doc(Tombstoned(d.chars, P.who)[N.who := N.relation], [N.who, ROOT])
  {
    assert d.flat == [ROOT, P.who] + [];
    RemoveP(d, []);
    BreakUnderTombstone(Step(d, Delete(P.who)));
  }

  lemma RemovedLast(d: Doc)
    requires Sound(d) && d == Doc(EMPTY.chars[P.who := P.relation], [ROOT, P.who])
    ensures Step(Step(d, Insert(N)), Delete(P.who)) ==
      Doc(Tombstoned(d.chars[N.who := N.relation], P.who), [ROOT, N.who])
  {
    BreakUnderLive(d);
    assert [ROOT, P.who, N.who] == [ROOT, P.who] + [N.who];
    RemoveP(Step(d, Insert(N)), [N.who]);
  }

  lemma AloneLandsP()
    ensures Sound(EMPTY) && Step(EMPTY, Insert(P)) == Doc(EMPTY.chars[P.who := P.relation], [ROOT, P.who])
  {
    EmptyIsFaithful();
    LandsAt(EMPTY, P, 0, 1);
  }

  /** A newline whose parent is removed: if the remove comes first the newline is shown in front of
      the sentinel, otherwise behind it. A dump lists adds and removes in either order. */
  lemma NewlineUnderTombstoneDiverges()
    ensures Sound(EMPTY)
    ensures Run(EMPTY, [Insert(P), Delete(P.who), Insert(N)]).chars ==
      Run(EMPTY, [Insert(P), Insert(N), Delete(P.who)]).chars
    ensures Run(EMPTY, [Insert(P), Delete(P.who), Insert(N)]).flat == [N.who, ROOT]
    ensures Run(EMPTY, [Insert(P), Insert(N), Delete(P.who)]).flat == [ROOT, N.who]
  {
    AloneLandsP();
    var d := Step(EMPTY, Insert(P));
    RemovedFirst(d);
    RemovedLast(d);
    RunThree(EMPTY, Insert(P), Delete(P.who), Insert(N));
    RunThree(EMPTY, Insert(P), Insert(N), Delete(P.who));
    TombstoneThenAdd(d.chars);
  }

  lemma TombstoneThenAdd(chars: Chars)
    requires P.who in chars
    ensures Tombstoned(chars, P.who)[N.who := N.relation] == Tombstoned(chars[N.who := N.relation], P.who)
  {}
}
