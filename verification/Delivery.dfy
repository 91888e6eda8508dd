/** Remote operations in any order: whatever the network does to a causally closed set of adds and
    removes, the queue ends with nothing pending and the one tree that the set describes. */
module Delivery {
  import opened Types
  import opened CharTree
  import opened Document
  import opened Shape
  import opened Queue

  // ----- The set of operations -----

  /** One relation for each added identity, and the identities that are removed. */
  datatype World = World(adds: Chars, removed: set<Ident>)

  /** The tree that `chars` becomes once everything in `w` has arrived. */
  function Goal(chars: Chars, w: World): Chars {
    map x | x in chars.Keys + w.adds.Keys ::
      var rel := if x in chars then chars[x] else w.adds[x];
      rel.(deleted := rel.deleted || x in w.removed)
  }

  /** The adds travel undeleted and agree with what the replica holds; parents and targets are
      recorded or in the set; nothing is its own ancestor; the sentinel is left alone. */
  ghost predicate Closed(chars: Chars, w: World) {
    && Rooted(chars) && Rooted(Goal(chars, w))
    && ROOT !in w.adds && ROOT !in w.removed && w.removed <= chars.Keys + w.adds.Keys
    && (forall x :: x in w.adds ==> !w.adds[x].deleted)
    && (forall x :: x in w.adds && x in chars ==> chars[x].(deleted := false) == w.adds[x])
  }

  /** Every new identity is anchored in the final tree. */
  ghost predicate AllAnchored(chars: Chars, w: World)
    requires Closed(chars, w)
  {
    forall x :: x in w.adds && x !in chars ==>
      w.adds[x].parent in Goal(chars, w) && Anchored(Goal(chars, w), Crdt(x, w.adds[x]))
  }

  predicate InWorld(w: World, op: NetOp) {
    match op
    case NetAdd(crdt, _) => crdt.who in w.adds && crdt.relation == w.adds[crdt.who]
    case NetRemove(who, _) => who in w.removed
  }

  /** Delivering one operation when nothing is queued. */
  ghost function Deliver(q: State, op: NetOp): (q': State)
    requires Sound(q.doc)
    ensures Sound(q'.doc)
  {
    match op
    case NetAdd(crdt, row) => AddNetwork(q, crdt, row)
    case NetRemove(who, row) => RemoveKeepsSound(q.doc, who); RemoveOp(q, who, row, false)
  }

  ghost function DeliverAll(q: State, ops: seq<NetOp>): (q': State)
    requires Sound(q.doc)
    ensures Sound(q'.doc)
    decreases |ops|
  {
    if ops == [] then q else DeliverAll(Deliver(q, ops[0]), ops[1..])
  }

  lemma {:induction false} DeliverConcat(q: State, ops: seq<NetOp>, more: seq<NetOp>)
    requires Sound(q.doc)
    ensures DeliverAll(q, ops + more) == DeliverAll(DeliverAll(q, ops), more)
    decreases |ops|
  {
    if ops == [] {
      assert ops + more == more;
    } else {
      assert (ops + more)[0] == ops[0] && (ops + more)[1..] == ops[1..] + more;
      DeliverConcat(Deliver(q, ops[0]), ops[1..], more);
    }
  }

  lemma DeliverIsDrain(q: State, op: NetOp)
    requires Sound(q.doc) && q.net.work == []
    ensures Deliver(q, op) == DrainNet(NetItem(q, op))
  {}

  /** With nothing waiting, an add that lands lands at once. */
  lemma DeliverAddAtOnce(q: State, crdt: Crdt, row: nat)
    requires Sound(q.doc) && q.net == NetSide(map[], []) && Lands(q.doc.chars, crdt) && crdt.who != ROOT
    ensures var q' := Deliver(q, NetAdd(crdt, row)); q'.doc == Step(q.doc, Insert(crdt)) && q'.net == NetSide(map[], [])
  {
    var none: map<Ident, seq<NetOp>> := map[];
    assert none - {crdt.who} == none;
  }

  // ----- Part of the way there -----

  /** `chars` holds the tree that the replica started from, part of what is to come, nothing else. */
  ghost predicate Partial(chars0: Chars, w: World, chars: Chars) {
    && chars0.Keys <= chars.Keys <= Goal(chars0, w).Keys
    && (forall x :: x in chars ==> chars[x].(deleted := false) == Goal(chars0, w)[x].(deleted := false))
    && (forall x :: x in chars && chars[x].deleted ==> Goal(chars0, w)[x].deleted)
    && (forall x :: x in chars0 && chars0[x].deleted ==> chars[x].deleted)
  }

  lemma {:induction false} ReachesRootLater(chars: Chars, goal: Chars, c: Ident)
    requires Rooted(chars) && Rooted(goal) && c in chars && Grows(chars, goal)
    requires forall x :: x in chars && chars[x].deleted ==> goal[x].deleted
    ensures ReachesRoot(chars, c) ==> ReachesRoot(goal, c)
    decreases Ranks(chars)[c]
  {
    if chars[c].deleted && chars[c].parent != ROOT { ReachesRootLater(chars, goal, chars[c].parent); }
  }

  /** Anchored in the final tree is anchored on the way. */
  lemma AnchoredOnTheWay(chars0: Chars, w: World, chars: Chars, crdt: Crdt)
    requires Closed(chars0, w) && AllAnchored(chars0, w) && Partial(chars0, w, chars) && Rooted(chars)
    requires crdt.who in w.adds && crdt.relation == w.adds[crdt.who] && Lands(chars, crdt)
    ensures Anchored(chars, crdt)
  {
    var goal := Goal(chars0, w);
    assert Anchored(goal, crdt);
    forall x | x in chars ensures x in goal && goal[x].parent == chars[x].parent {
      assert chars[x].(deleted := false) == goal[x].(deleted := false);
    }
    ReachesRootLater(chars, goal, crdt.relation.parent);
  }

  // ----- The callbacks -----

  function AddedBy(e: Event): set<Ident> {
    if e.RemoteAdd? then {e.shown.who} else {}
  }

  function RemovedBy(e: Event): set<Ident> {
    if e.RemoteRemove? then {e.who} else {}
  }

  function Added(log: seq<Event>): set<Ident> {
    if log == [] then {} else Added(log[..|log| - 1]) + AddedBy(log[|log| - 1])
  }

  function Removed(log: seq<Event>): set<Ident> {
    if log == [] then {} else Removed(log[..|log| - 1]) + RemovedBy(log[|log| - 1])
  }

  /** `e` is the first callback of its kind for its identity; its parent's add, or its own, came before. */
  predicate Fits(goal: Chars, chars0: Chars, log: seq<Event>, e: Event) {
    match e
    case RemoteAdd(shown) =>
      shown.who in goal && shown.who !in chars0.Keys + Added(log) && goal[shown.who].parent in chars0.Keys + Added(log)
    case RemoteRemove(who) =>
      who !in Removed(log) && who in chars0.Keys + Added(log) && (who in chars0 ==> !chars0[who].deleted)
    case _ => false
  }

  /** One callback for each new identity, after its parent's; one for each new tombstone, after its add. */
  predicate Orderly(goal: Chars, chars0: Chars, log: seq<Event>) {
    log == [] || (Orderly(goal, chars0, log[..|log| - 1]) && Fits(goal, chars0, log[..|log| - 1], log[|log| - 1]))
  }

  lemma LogGrows(goal: Chars, chars0: Chars, log: seq<Event>, e: Event)
    ensures Added(log + [e]) == Added(log) + AddedBy(e)
    ensures Removed(log + [e]) == Removed(log) + RemovedBy(e)
    ensures Orderly(goal, chars0, log + [e]) <==> Orderly(goal, chars0, log) && Fits(goal, chars0, log, e)
  {
    assert (log + [e])[..|log|] == log;
  }

  /** The callbacks `log` account for every difference from `chars0` to `chars`. */
  ghost predicate Accounted(chars0: Chars, w: World, chars: Chars, log: seq<Event>) {
    && Orderly(Goal(chars0, w), chars0, log) && chars.Keys == chars0.Keys + Added(log)
    && forall x :: x in chars ==> (chars[x].deleted <==> (x in chars0 && chars0[x].deleted) || x in Removed(log))
  }

  // ----- What is pending -----

  function Key(op: NetOp): Ident {
    match op
    case NetAdd(crdt, _) => crdt.relation.parent
    case NetRemove(who, _) => who
  }

  predicate Held(q: State, op: NetOp) {
    op in q.net.work || op in Waiting(q.net.backlog, Key(op))
  }

  /** The operation has had its effect. */
  predicate Done(q: State, op: NetOp) {
    match op
    case NetAdd(crdt, _) => crdt.who in q.doc.chars
    case NetRemove(who, _) => who in q.doc.chars && q.doc.chars[who].deleted
  }

  /** Backlogged operations wait for something that is missing. */
  ghost predicate BacklogOk(w: World, chars: Chars, backlog: map<Ident, seq<NetOp>>) {
    forall k :: k in backlog ==>
      k !in chars && backlog[k] != [] && forall op :: op in backlog[k] ==> InWorld(w, op) && Key(op) == k
  }

  ghost predicate WorkOk(w: World, work: seq<NetOp>) {
    forall op :: op in work ==> InWorld(w, op)
  }

  ghost predicate OnTheWay(chars0: Chars, w: World, q: State, log0: seq<Event>) {
    && WellFormed(q.doc) && q.anchored && Partial(chars0, w, q.doc.chars)
    && BacklogOk(w, q.doc.chars, q.net.backlog) && WorkOk(w, q.net.work)
    && log0 <= q.log && Accounted(chars0, w, q.doc.chars, q.log[|log0|..])
  }

  // ----- One operation -----

  lemma LandPartial(chars0: Chars, w: World, chars: Chars, crdt: Crdt)
    requires Closed(chars0, w) && Partial(chars0, w, chars) && crdt.who in w.adds
    requires crdt.relation == w.adds[crdt.who] && Lands(chars, crdt)
    ensures Partial(chars0, w, chars[crdt.who := crdt.relation])
  {}

  lemma BuryPartial(chars0: Chars, w: World, chars: Chars, who: Ident)
    requires Closed(chars0, w) && Partial(chars0, w, chars) && who in w.removed && who in chars
    ensures Partial(chars0, w, Tombstoned(chars, who))
  {}

  lemma LandAccounted(chars0: Chars, w: World, chars: Chars, log: seq<Event>, crdt: Crdt, shown: Crdt)
    requires Closed(chars0, w) && Accounted(chars0, w, chars, log) && Lands(chars, crdt) && shown.who == crdt.who
    requires Partial(chars0, w, chars) && crdt.who in w.adds && crdt.relation == w.adds[crdt.who]
    ensures Accounted(chars0, w, chars[crdt.who := crdt.relation], log + [RemoteAdd(shown)])
  {
    LogGrows(Goal(chars0, w), chars0, log, RemoteAdd(shown));
    RemovedIsAdded(Goal(chars0, w), chars0, log);
  }

  lemma {:induction false} RemovedIsAdded(goal: Chars, chars0: Chars, log: seq<Event>)
    requires Orderly(goal, chars0, log)
    ensures Removed(log) <= chars0.Keys + Added(log)
  {
    if log != [] { RemovedIsAdded(goal, chars0, log[..|log| - 1]); }
  }

  lemma BuryAccounted(chars0: Chars, w: World, chars: Chars, log: seq<Event>, who: Ident)
    requires Accounted(chars0, w, chars, log) && Live(chars, who)
    ensures Accounted(chars0, w, Tombstoned(chars, who), log + [RemoteRemove(who)])
  {
    LogGrows(Goal(chars0, w), chars0, log, RemoteRemove(who));
  }

  /** What a remote add that lands changes. */
  lemma NetLandFields(q: State, crdt: Crdt, row: nat)
    requires Sound(q.doc) && crdt.who != ROOT && Lands(q.doc.chars, crdt)
    ensures var q', d' := NetLand(q, crdt, row), Inserted(q.doc, crdt);
      q'.doc == d' && q'.net.backlog == q.net.backlog - {crdt.who} &&
      q'.net.work == q.net.work + Waiting(q.net.backlog, crdt.who) &&
      q'.log == q.log + [RemoteAdd(Shown(d', crdt))] && q'.anchored == (q.anchored && Anchored(q.doc.chars, crdt)) &&
      d'.chars == q.doc.chars[crdt.who := crdt.relation]
  {}

  lemma LandOnTheWay(chars0: Chars, w: World, q: State, log0: seq<Event>, crdt: Crdt, row: nat)
    requires Closed(chars0, w) && AllAnchored(chars0, w) && OnTheWay(chars0, w, q, log0)
    requires InWorld(w, NetAdd(crdt, row))
    requires Lands(q.doc.chars, crdt)
    ensures OnTheWay(chars0, w, NetLand(q, crdt, row), log0)
  {
    AnchoredOnTheWay(chars0, w, q.doc.chars, crdt);
    var d', shown, q' := Inserted(q.doc, crdt), Shown(Inserted(q.doc, crdt), crdt), NetLand(q, crdt, row);
    assert q'.doc == d' && q'.net.backlog == q.net.backlog - {crdt.who} &&
      q'.net.work == q.net.work + Waiting(q.net.backlog, crdt.who) &&
      q'.log == q.log + [RemoteAdd(shown)] && q'.anchored && d'.chars == q.doc.chars[crdt.who := crdt.relation] by {
      NetLandFields(q, crdt, row);
    }
    assert WellFormed(d') by { AnchoredAddKeepsWellFormed(q.doc, crdt); }
    LandPartial(chars0, w, q.doc.chars, crdt);
    LandAccounted(chars0, w, q.doc.chars, q.log[|log0|..], crdt, shown);
    SuffixGrows(q.log, log0, RemoteAdd(shown));
    ReleaseOk(w, q.doc.chars, q.net.backlog, q.net.work, crdt);
  }

  lemma ReleaseOk(w: World, chars: Chars, backlog: map<Ident, seq<NetOp>>, work: seq<NetOp>, crdt: Crdt)
    requires BacklogOk(w, chars, backlog) && WorkOk(w, work)
    ensures BacklogOk(w, chars[crdt.who := crdt.relation], backlog - {crdt.who})
    ensures WorkOk(w, work + Waiting(backlog, crdt.who))
  {}

  lemma PushOk(w: World, chars: Chars, backlog: map<Ident, seq<NetOp>>, op: NetOp)
    requires BacklogOk(w, chars, backlog) && InWorld(w, op) && Key(op) !in chars
    ensures BacklogOk(w, chars, Push(backlog, Key(op), op))
  {
    var l := Waiting(backlog, Key(op)) + [op];
    forall o | o in l ensures InWorld(w, o) && Key(o) == Key(op) {
      if o != op { assert o in Waiting(backlog, Key(op)); }
    }
  }

  lemma RemoveOnTheWay(chars0: Chars, w: World, q: State, log0: seq<Event>, who: Ident, row: nat)
    requires Closed(chars0, w) && OnTheWay(chars0, w, q, log0) && InWorld(w, NetRemove(who, row))
    requires Live(q.doc.chars, who)
    ensures OnTheWay(chars0, w, RemoveOp(q, who, row, false), log0)
  {
    assert WellFormed(Remove(q.doc, who)) by { RemoveKeepsWellFormed(q.doc, who); }
    BuryPartial(chars0, w, q.doc.chars, who);
    BuryAccounted(chars0, w, q.doc.chars, q.log[|log0|..], who);
    SuffixGrows(q.log, log0, RemoteRemove(who));
  }

  lemma PushOnTheWay(chars0: Chars, w: World, q: State, log0: seq<Event>, op: NetOp)
    requires Closed(chars0, w) && OnTheWay(chars0, w, q, log0) && InWorld(w, op) && Key(op) !in q.doc.chars
    ensures OnTheWay(chars0, w, NetItem(q, op), log0)
  {
    PushOk(w, q.doc.chars, q.net.backlog, op);
    assert NetItem(q, op).net == q.net.(backlog := Push(q.net.backlog, Key(op), op));
  }

  lemma ItemOnTheWay(chars0: Chars, w: World, q: State, log0: seq<Event>, op: NetOp)
    requires Closed(chars0, w) && AllAnchored(chars0, w) && OnTheWay(chars0, w, q, log0) && InWorld(w, op)
    ensures OnTheWay(chars0, w, NetItem(q, op), log0)
  {
    if Key(op) !in q.doc.chars {
      PushOnTheWay(chars0, w, q, log0, op);
    } else {
      match op
      case NetAdd(crdt, row) => if Lands(q.doc.chars, crdt) { LandOnTheWay(chars0, w, q, log0, crdt, row); }
      case NetRemove(who, row) => if Live(q.doc.chars, who) { RemoveOnTheWay(chars0, w, q, log0, who, row); }
    }
  }

  lemma ItemHeldOrDone(q: State, op: NetOp)
    requires Sound(q.doc) && (op.NetAdd? ==> op.crdt.who != ROOT) && (op.NetRemove? ==> op.who != ROOT)
    ensures Held(NetItem(q, op), op) || Done(NetItem(q, op), op)
  {
    if Key(op) !in q.doc.chars { assert op in Waiting(Push(q.net.backlog, Key(op), op), Key(op)); }
  }

  /** Nothing that was pending gets lost. */
  lemma HeldStays(q: State, item: NetOp, op: NetOp)
    requires Sound(q.doc) && Held(q, op)
    ensures Held(NetItem(q, item), op)
  {
    if item.NetAdd? && item.crdt.who != ROOT && Lands(q.doc.chars, item.crdt) {
      NetLandFields(q, item.crdt, item.row);
      var q' := NetItem(q, item);
      assert q'.net.work == q.net.work + Waiting(q.net.backlog, item.crdt.who);
      assert Key(op) != item.crdt.who ==> Waiting(q'.net.backlog, Key(op)) == Waiting(q.net.backlog, Key(op));
    }
  }

  /** Nothing that was done is undone. */
  lemma DoneStays(q: State, item: NetOp, op: NetOp)
    requires Sound(q.doc) && Done(q, op)
    ensures Done(NetItem(q, item), op)
  {
    if item.NetAdd? && item.crdt.who != ROOT && Lands(q.doc.chars, item.crdt) { NetLandFields(q, item.crdt, item.row); }
  }

  // ----- Runs -----

  lemma {:induction false} DrainOnTheWay(chars0: Chars, w: World, q: State, log0: seq<Event>)
    requires Closed(chars0, w) && AllAnchored(chars0, w) && Sound(q.doc) && OnTheWay(chars0, w, q, log0)
    ensures OnTheWay(chars0, w, DrainNet(q), log0)
    decreases NetPending(q), |q.net.work|
  {
    if q.net.work != [] {
      var q1, item := q.(net := q.net.(work := q.net.work[1..])), q.net.work[0];
      assert item in q.net.work && OnTheWay(chars0, w, q1, log0);
      ItemOnTheWay(chars0, w, q1, log0, item);
      DrainOnTheWay(chars0, w, PopNet(q), log0);
    }
  }

  ghost predicate Kept(q: State, op: NetOp) {
    Held(q, op) || Done(q, op)
  }

  predicate SparesRoot(op: NetOp) {
    match op
    case NetAdd(crdt, _) => crdt.who != ROOT
    case NetRemove(who, _) => who != ROOT
  }

  lemma ItemKeeps(q: State, item: NetOp, op: NetOp)
    requires Sound(q.doc) && SparesRoot(item) && (op == item || Kept(q, op))
    ensures Kept(NetItem(q, item), op)
  {
    if Done(q, op) { DoneStays(q, item, op); }
    else if op == item { ItemHeldOrDone(q, item); }
    else { HeldStays(q, item, op); }
  }

  lemma PopKeeps(q: State, op: NetOp)
    requires q.net.work != [] && Kept(q, op)
    ensures op == q.net.work[0] || Kept(q.(net := q.net.(work := q.net.work[1..])), op)
  {
    assert q.net.work == [q.net.work[0]] + q.net.work[1..];
  }

  lemma {:induction false} DrainKeeps(chars0: Chars, w: World, q: State, log0: seq<Event>, op: NetOp)
    requires Closed(chars0, w) && AllAnchored(chars0, w) && Sound(q.doc) && OnTheWay(chars0, w, q, log0) && Kept(q, op)
    ensures Kept(DrainNet(q), op)
    decreases NetPending(q), |q.net.work|
  {
    if q.net.work != [] {
      var q1, item := q.(net := q.net.(work := q.net.work[1..])), q.net.work[0];
      assert item in q.net.work && OnTheWay(chars0, w, q1, log0);
      PopKeeps(q, op);
      ItemKeeps(q1, item, op);
      ItemOnTheWay(chars0, w, q1, log0, item);
      DrainKeeps(chars0, w, PopNet(q), log0, op);
    }
  }

  lemma DeliverOnTheWay(chars0: Chars, w: World, q: State, log0: seq<Event>, op: NetOp)
    requires Closed(chars0, w) && AllAnchored(chars0, w) && Sound(q.doc) && OnTheWay(chars0, w, q, log0)
    requires InWorld(w, op) && q.net.work == []
    ensures OnTheWay(chars0, w, Deliver(q, op), log0) && Deliver(q, op).net.work == []
  {
    DeliverIsDrain(q, op);
    ItemOnTheWay(chars0, w, q, log0, op);
    DrainOnTheWay(chars0, w, NetItem(q, op), log0);
  }

  lemma DeliverKeeps(chars0: Chars, w: World, q: State, log0: seq<Event>, op: NetOp, o: NetOp)
    requires Closed(chars0, w) && AllAnchored(chars0, w) && Sound(q.doc) && OnTheWay(chars0, w, q, log0)
    requires InWorld(w, op) && q.net.work == [] && (o == op || Kept(q, o))
    ensures Kept(Deliver(q, op), o)
  {
    DeliverIsDrain(q, op);
    ItemOnTheWay(chars0, w, q, log0, op);
    ItemKeeps(q, op, o);
    DrainKeeps(chars0, w, NetItem(q, op), log0, o);
  }

  lemma {:induction false} DeliverAllOnTheWay(chars0: Chars, w: World, q: State, log0: seq<Event>, ops: seq<NetOp>)
    requires Closed(chars0, w) && AllAnchored(chars0, w) && Sound(q.doc) && OnTheWay(chars0, w, q, log0)
    requires q.net.work == [] && forall op :: op in ops ==> InWorld(w, op)
    ensures OnTheWay(chars0, w, DeliverAll(q, ops), log0) && DeliverAll(q, ops).net.work == []
    decreases |ops|
  {
    if ops != [] {
      DeliverOnTheWay(chars0, w, q, log0, ops[0]);
      DeliverAllOnTheWay(chars0, w, Deliver(q, ops[0]), log0, ops[1..]);
    }
  }

  lemma {:induction false} DeliverAllKeeps(chars0: Chars, w: World, q: State, log0: seq<Event>, ops: seq<NetOp>,
                                           o: NetOp)
    requires Closed(chars0, w) && AllAnchored(chars0, w) && Sound(q.doc) && OnTheWay(chars0, w, q, log0)
    requires q.net.work == [] && (forall op :: op in ops ==> InWorld(w, op)) && (o in ops || Kept(q, o))
    ensures Kept(DeliverAll(q, ops), o)
    decreases |ops|
  {
    if ops != [] {
      DeliverOnTheWay(chars0, w, q, log0, ops[0]);
      if o == ops[0] || Kept(q, o) { DeliverKeeps(chars0, w, q, log0, ops[0], o); }
      DeliverAllKeeps(chars0, w, Deliver(q, ops[0]), log0, ops[1..], o);
    }
  }

  // ----- The theorem -----

  /** A delivery order: operations of the set, in any order and with any repeats, each at least once. */
  ghost predicate Delivers(w: World, ops: seq<NetOp>) {
    && (forall op :: op in ops ==> InWorld(w, op))
    && (forall x :: x in w.adds ==> exists op :: op in ops && op.NetAdd? && op.crdt.who == x)
    && (forall x :: x in w.removed ==> exists op :: op in ops && op.NetRemove? && op.who == x)
  }

  lemma {:induction false} AllArrive(chars0: Chars, w: World, q: State, ops: seq<NetOp>, x: Ident)
    requires Closed(chars0, w) && BacklogOk(w, q.doc.chars, q.net.backlog) && chars0.Keys <= q.doc.chars.Keys
    requires q.net.work == [] && Delivers(w, ops) && forall op :: op in ops ==> Kept(q, op)
    requires x in Goal(chars0, w)
    ensures x in q.doc.chars
    decreases Ranks(Goal(chars0, w))[x]
  {
    if x !in chars0 {
      var p := Goal(chars0, w)[x].parent;
      AllArrive(chars0, w, q, ops, p);
      var op :| op in ops && op.NetAdd? && op.crdt.who == x;
      assert InWorld(w, op) && Kept(q, op) && Key(op) == p;
    }
  }

  lemma AllDone(chars0: Chars, w: World, q: State, log0: seq<Event>, ops: seq<NetOp>)
    requires Closed(chars0, w) && OnTheWay(chars0, w, q, log0) && q.net.work == [] && Delivers(w, ops)
    requires forall op :: op in ops ==> Kept(q, op)
    ensures q.net.backlog == map[] && q.doc.chars == Goal(chars0, w)
  {
    var goal := Goal(chars0, w);
    forall x | x in goal ensures x in q.doc.chars { AllArrive(chars0, w, q, ops, x); }
    forall k | k in q.net.backlog ensures false { NothingWaits(chars0, w, q, k); }
    forall x | x in goal ensures q.doc.chars[x] == goal[x] { RelationArrived(chars0, w, q, ops, x); }
  }

  lemma NothingWaits(chars0: Chars, w: World, q: State, k: Ident)
    requires Closed(chars0, w) && BacklogOk(w, q.doc.chars, q.net.backlog) && q.doc.chars.Keys == Goal(chars0, w).Keys
    ensures k !in q.net.backlog
  {
    if k in q.net.backlog {
      var op := q.net.backlog[k][0];
      assert op in q.net.backlog[k];
      KeyIsKnown(chars0, w, op);
      assert false;
    }
  }

  lemma KeyIsKnown(chars0: Chars, w: World, op: NetOp)
    requires Closed(chars0, w) && InWorld(w, op)
    ensures Key(op) in Goal(chars0, w)
  {
    var goal := Goal(chars0, w);
    if op.NetAdd? { assert goal[op.crdt.who].parent == Key(op) && op.crdt.who != ROOT; }
  }

  lemma RelationArrived(chars0: Chars, w: World, q: State, ops: seq<NetOp>, x: Ident)
    requires Closed(chars0, w) && Partial(chars0, w, q.doc.chars) && q.doc.chars.Keys == Goal(chars0, w).Keys
    requires q.net.backlog == map[] && q.net.work == [] && Delivers(w, ops) && x in Goal(chars0, w)
    requires forall op :: op in ops ==> Kept(q, op)
    ensures q.doc.chars[x] == Goal(chars0, w)[x]
  {
    assert q.doc.chars[x].(deleted := false) == Goal(chars0, w)[x].(deleted := false);
    if x in w.removed {
      var op :| op in ops && op.NetRemove? && op.who == x;
      assert Kept(q, op);
    }
  }

  /** Every delivery order of a closed and anchored set, repeats included, ends with nothing
      pending and the same tree and tombstones, and fires exactly one callback for each new
      identity and each new tombstone, parents before children and adds before removes. */
  lemma AnyDeliveryOrder(q: State, w: World, ops: seq<NetOp>)
    requires WellFormed(q.doc) && Sound(q.doc) && q.anchored && q.net.backlog == map[] && q.net.work == []
    requires Closed(q.doc.chars, w) && AllAnchored(q.doc.chars, w) && Delivers(w, ops)
    ensures var q', chars, goal := DeliverAll(q, ops), q.doc.chars, Goal(q.doc.chars, w);
      q'.net.backlog == map[] && q'.net.work == [] && q'.doc.chars == goal && q'.anchored && WellFormed(q'.doc) &&
      q.log <= q'.log && Orderly(goal, chars, q'.log[|q.log|..]) &&
      Added(q'.log[|q.log|..]) == goal.Keys - chars.Keys &&
      forall x :: x in Removed(q'.log[|q.log|..]) <==> x in goal && goal[x].deleted && !(x in chars && chars[x].deleted)
  {
    var chars, q' := q.doc.chars, DeliverAll(q, ops);
    StartsOnTheWay(q, w);
    DeliverAllOnTheWay(chars, w, q, q.log, ops);
    forall op | op in ops ensures Kept(q', op) { DeliverAllKeeps(chars, w, q, q.log, ops, op); }
    AllDone(chars, w, q', q.log, ops);
    LogOfArrival(chars, w, q'.log[|q.log|..]);
  }

  lemma StartsOnTheWay(q: State, w: World)
    requires WellFormed(q.doc) && q.anchored && q.net.backlog == map[] && q.net.work == [] && Closed(q.doc.chars, w)
    ensures OnTheWay(q.doc.chars, w, q, q.log)
  {
    assert q.log[|q.log|..] == [];
  }

  lemma LogOfArrival(chars0: Chars, w: World, log: seq<Event>)
    requires Accounted(chars0, w, Goal(chars0, w), log)
    ensures var goal := Goal(chars0, w);
      Added(log) == goal.Keys - chars0.Keys &&
      forall x :: x in Removed(log) <==> x in goal && goal[x].deleted && !(x in chars0 && chars0[x].deleted)
  {
    AddedIsNew(Goal(chars0, w), chars0, log);
    RemovedIsNew(Goal(chars0, w), chars0, log);
  }

  lemma {:induction false} AddedIsNew(goal: Chars, chars0: Chars, log: seq<Event>)
    requires Orderly(goal, chars0, log)
    ensures Added(log) !! chars0.Keys
  {
    if log != [] { AddedIsNew(goal, chars0, log[..|log| - 1]); }
  }

  lemma {:induction false} RemovedIsNew(goal: Chars, chars0: Chars, log: seq<Event>)
    requires Orderly(goal, chars0, log)
    ensures forall x :: x in Removed(log) ==> x in chars0.Keys + Added(log) && !(x in chars0 && chars0[x].deleted)
  {
    if log != [] { RemovedIsNew(goal, chars0, log[..|log| - 1]); }
  }
}
