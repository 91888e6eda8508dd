/** Any number of replicas, each serving its own editor and, in between, what the others broadcast,
    in any order and with any repeats. */
module Mesh {
  import opened Types
  import opened CharTree
  import opened Document
  import opened Shape
  import opened TreeOrder
  import opened Queue
  import opened QueueSafety
  import opened Delivery
  import opened Convergence
  import opened Broadcast

  // ----- One keystroke -----

  ghost predicate EditorIdle(q: State) {
    q.ide == IdeSide(map[], map[], [])
  }

  /** The editor names a parent, or a target, that its replica has recorded. */
  ghost predicate NamesRecorded(q: State, r: Request) {
    match r
    case Local(op) => q.counter < MAX_U32 && Resolve(Receive(q, op), op.parent).Some? &&
      Resolve(Receive(q, op), op.parent).value in q.doc.chars
    case LocalDelete(who, _) => who in q.doc.chars
    case _ => false
  }

  ghost function Fresh(q: State, op: IdeAdd): Crdt
    requires NamesRecorded(q, Local(op))
  {
    Crdt(Ident(q.counter + 1, q.ids.peer), Relation(op.value, Resolve(Receive(q, op), op.parent).value, false))
  }

  /** What a keystroke broadcasts. */
  ghost function Keyed(q: State, r: Request): seq<Op>
    requires NamesRecorded(q, r)
  {
    match r
    case Local(op) => [Insert(Fresh(q, op))]
    case LocalDelete(who, _) => if who != ROOT && Live(q.doc.chars, who) then [Delete(who)] else []
    case _ => []
  }

  lemma TypeLands(q: State, op: IdeAdd)
    requires Sound(q.doc) && Within(q) && EditorIdle(q) && NamesRecorded(q, Local(op))
    ensures Lands(q.doc.chars, Fresh(q, op)) && IdeWithin(q.counter)(op)
    ensures var q' := AddIde(q, op);
      q'.doc == Inserted(q.doc, Fresh(q, op)) && q'.net == q.net && EditorIdle(q') && q'.ids.peer == q.ids.peer
    ensures exists shown ::
      AddIde(q, op).log == q.log + [Confirmed(op.tag, Fresh(q, op).who), LocalAdd(Fresh(q, op), shown)]
  {
    var q1, crdt := Receive(q, op), Fresh(q, op);
    ReceiveWithin(q, op);
    IdeFirstIsLand(q1, op);
    var noTag: map<u32, seq<IdeAdd>> := map[];
    var noWait: map<Ident, seq<IdeAdd>> := map[];
    assert noTag - {op.tag} == noTag && noWait - {crdt.who} == noWait;
    assert IdeCrdt(q1, op, crdt.relation.parent) == crdt;
    var q2 := IdeLand(q1, op);
    assert q2 == Queue.Broadcast(ReleaseIde(Land(q1, crdt), crdt.who), crdt);
    assert q2.log == q.log + [Confirmed(op.tag, crdt.who), LocalAdd(crdt, Shown(q2.doc, crdt))];
  }

  lemma TwoEvents(log: seq<Event>, e: Event, f: Event)
    ensures Outgoing((log + [e, f])[|log|..]) == OutOf(e) + OutOf(f)
  {
    var none: seq<Event> := [];
    assert (log + [e, f])[|log|..] == (none + [e]) + [f];
    OutgoingGrows(none + [e], f);
    OutgoingGrows(none, e);
  }

  lemma AddIsOutgoing(q: State, op: IdeAdd)
    requires Sound(q.doc) && Within(q) && EditorIdle(q) && NamesRecorded(q, Local(op))
    ensures |q.log| <= |AddIde(q, op).log| && Outgoing(AddIde(q, op).log[|q.log|..]) == [Insert(Fresh(q, op))]
  {
    TypeLands(q, op);
    var crdt := Fresh(q, op);
    var shown :| AddIde(q, op).log == q.log + [Confirmed(op.tag, crdt.who), LocalAdd(crdt, shown)];
    TwoEvents(q.log, Confirmed(op.tag, crdt.who), LocalAdd(crdt, shown));
    assert OutOf(Confirmed(op.tag, crdt.who)) + OutOf(LocalAdd(crdt, shown)) == [Insert(crdt)];
  }

  lemma OneEvent(log: seq<Event>, e: Event)
    ensures Outgoing((log + [e])[|log|..]) == OutOf(e)
    ensures Outgoing(log[|log|..]) == []
  {
    var none: seq<Event> := [];
    assert (log + [e])[|log|..] == none + [e];
    OutgoingGrows(none, e);
    assert Outgoing(none) + OutOf(e) == OutOf(e);
  }

  /** `Keyed` is what the callbacks tell the peers. */
  lemma KeyedIsOutgoing(q: State, r: Request)
    requires Sound(q.doc) && Within(q) && EditorIdle(q) && NamesRecorded(q, r) && !Exhausted(q, r)
    ensures |q.log| <= |Handle(q, r).log| && Outgoing(Handle(q, r).log[|q.log|..]) == Keyed(q, r)
  {
    match r
    case Local(op) => AddIsOutgoing(q, op);
    case LocalDelete(who, row) => RemoveIsOutgoing(q, who, row);
  }

  lemma RemoveIsOutgoing(q: State, who: Ident, row: nat)
    requires Sound(q.doc) && who in q.doc.chars
    ensures var q' := RemoveOp(q, who, row, true);
      |q.log| <= |q'.log| && Outgoing(q'.log[|q.log|..]) == Keyed(q, LocalDelete(who, row))
  {
    OneEvent(q.log, LocalRemove(who));
  }

  // ----- The mesh -----

  /** A replica, and the operations it has broadcast or been given. */
  datatype Node = Node(q: State, got: set<Op>)

  /** `all` is what has been broadcast by anyone, in the order of the callbacks. */
  datatype Net = Net(nodes: seq<Node>, all: seq<Op>)

  datatype Act = Type(i: nat, r: Request) | Give(i: nat, k: nat)

  ghost predicate SoundNet(net: Net) {
    forall i :: 0 <= i < |net.nodes| ==> Sound(net.nodes[i].q.doc)
  }

  /** An editor types, or a replica is given something that has been broadcast, once more or for the
      first time. */
  ghost predicate Possible(net: Net, act: Act) {
    match act
    case Type(i, r) => i < |net.nodes| && NamesRecorded(net.nodes[i].q, r)
    case Give(i, k) => i < |net.nodes| && k < |net.all|
  }

  ghost function Typing(node: Node, r: Request): (node': Node)
    requires Sound(node.q.doc) && NamesRecorded(node.q, r)
    ensures Sound(node'.q.doc)
  {
    Node(Handle(node.q, r), node.got + set op | op in Keyed(node.q, r))
  }

  ghost function Given(node: Node, op: Op): (node': Node)
    requires Sound(node.q.doc)
    ensures Sound(node'.q.doc)
  {
    Node(Deliver(node.q, OnTheWire(op)), node.got + {op})
  }

  ghost function React(net: Net, act: Act): (net': Net)
    requires SoundNet(net) && Possible(net, act)
    ensures SoundNet(net')
  {
    match act
    case Type(i, r) => Net(net.nodes[i := Typing(net.nodes[i], r)], net.all + Keyed(net.nodes[i].q, r))
    case Give(i, k) => Net(net.nodes[i := Given(net.nodes[i], net.all[k])], net.all)
  }

  ghost predicate AllPossible(net: Net, acts: seq<Act>)
    requires SoundNet(net)
    decreases |acts|
  {
    acts == [] || (Possible(net, acts[0]) && AllPossible(React(net, acts[0]), acts[1..]))
  }

  ghost function RunNet(net: Net, acts: seq<Act>): (net': Net)
    requires SoundNet(net) && AllPossible(net, acts)
    ensures SoundNet(net')
    decreases |acts|
  {
    if acts == [] then net else RunNet(React(net, acts[0]), acts[1..])
  }

  /** A run goes through every act, one after the other. */
  lemma {:induction false} ActsCompose(net: Net, a: seq<Act>, b: seq<Act>)
    requires SoundNet(net) && AllPossible(net, a + b)
    ensures AllPossible(net, a) && AllPossible(RunNet(net, a), b) && RunNet(net, a + b) == RunNet(RunNet(net, a), b)
    decreases |a|
  {
    if a == [] {
      assert a + b == b;
    } else {
      assert (a + b)[0] == a[0] && (a + b)[1..] == a[1..] + b;
      ActsCompose(React(net, a[0]), a[1..], b);
    }
  }

  lemma OneAct(net: Net, act: Act)
    requires SoundNet(net) && Possible(net, act)
    ensures AllPossible(net, [act]) && RunNet(net, [act]) == React(net, act)
  {
    assert [act][1..] == [];
  }

  // ----- The invariant -----

  ghost predicate GrowsInto(w: World, w': World) {
    (forall x :: x in w.adds ==> x in w'.adds && w'.adds[x] == w.adds[x]) && w.removed <= w'.removed
  }

  /** Part of the tree of everything broadcast, and what waits is of it too. */
  ghost predicate Carries(chars0: Chars, w: World, q: State) {
    && Sound(q.doc) && Partial(chars0, w, q.doc.chars)
    && BacklogOk(w, q.doc.chars, q.net.backlog) && WorkOk(w, q.net.work)
  }

  /** What the replica made itself is in its tree, and what it got is in its tree or waits. */
  ghost predicate NodeOk(chars0: Chars, w: World, node: Node) {
    && Carries(chars0, w, node.q) && node.q.net.work == [] && EditorIdle(node.q) && Within(node.q)
    && (forall x :: x in w.adds && x.peer == node.q.ids.peer ==> x in node.q.doc.chars)
    && KeepsGot(node)
  }

  ghost predicate KeepsGot(node: Node) {
    forall op :: op in node.got ==> Kept(node.q, OnTheWire(op))
  }

  ghost predicate Apart(nodes: seq<Node>) {
    forall i, j :: 0 <= i < j < |nodes| ==> nodes[i].q.ids.peer != nodes[j].q.ids.peer
  }

  ghost predicate AllOk(chars0: Chars, w: World, nodes: seq<Node>) {
    forall i :: 0 <= i < |nodes| ==> NodeOk(chars0, w, nodes[i])
  }

  ghost predicate Inv(chars0: Chars, net: Net) {
    var w := SentWorld(net.all);
    && Closed(chars0, w) && Delivers(w, Wire(net.all))
    && AllOk(chars0, w, net.nodes) && Apart(net.nodes)
  }

  lemma PartialGrows(chars0: Chars, w: World, w': World, chars: Chars)
    requires Partial(chars0, w, chars) && GrowsInto(w, w')
    ensures Partial(chars0, w', chars)
  {}

  lemma InWorldGrows(w: World, w': World, op: NetOp)
    requires InWorld(w, op) && GrowsInto(w, w')
    ensures InWorld(w', op)
  {}

  lemma BacklogGrows(w: World, w': World, chars: Chars, backlog: map<Ident, seq<NetOp>>)
    requires BacklogOk(w, chars, backlog) && GrowsInto(w, w')
    ensures BacklogOk(w', chars, backlog)
  {
    forall k, op | k in backlog && op in backlog[k] ensures InWorld(w', op) && Key(op) == k { InWorldGrows(w, w', op); }
  }

  lemma CarriesGrows(chars0: Chars, w: World, w': World, q: State)
    requires Carries(chars0, w, q) && GrowsInto(w, w')
    ensures Carries(chars0, w', q)
  {
    PartialGrows(chars0, w, w', q.doc.chars);
    BacklogGrows(w, w', q.doc.chars, q.net.backlog);
    forall op | op in q.net.work ensures InWorld(w', op) { InWorldGrows(w, w', op); }
  }

  // ----- Something is given -----

  lemma LandCarries(chars0: Chars, w: World, q: State, crdt: Crdt, row: nat)
    requires Closed(chars0, w) && Carries(chars0, w, q) && InWorld(w, NetAdd(crdt, row)) && Lands(q.doc.chars, crdt)
    ensures Carries(chars0, w, NetLand(q, crdt, row))
  {
    NetLandFields(q, crdt, row);
    LandPartial(chars0, w, q.doc.chars, crdt);
    ReleaseOk(w, q.doc.chars, q.net.backlog, q.net.work, crdt);
  }

  lemma BuryCarries(chars0: Chars, w: World, q: State, who: Ident, row: nat, local: bool)
    requires Closed(chars0, w) && Carries(chars0, w, q) && who in w.removed && Live(q.doc.chars, who)
    ensures Carries(chars0, w, RemoveOp(q, who, row, local))
  {
    RemoveKeepsSound(q.doc, who);
    BuryPartial(chars0, w, q.doc.chars, who);
  }

  lemma PushCarries(chars0: Chars, w: World, q: State, op: NetOp)
    requires Closed(chars0, w) && Carries(chars0, w, q) && InWorld(w, op) && Key(op) !in q.doc.chars
    ensures Carries(chars0, w, NetItem(q, op))
  {
    PushOk(w, q.doc.chars, q.net.backlog, op);
    assert NetItem(q, op).net == q.net.(backlog := Push(q.net.backlog, Key(op), op));
  }

  lemma ItemCarries(chars0: Chars, w: World, q: State, op: NetOp)
    requires Closed(chars0, w) && Carries(chars0, w, q) && InWorld(w, op)
    ensures Carries(chars0, w, NetItem(q, op))
  {
    if Key(op) !in q.doc.chars {
      PushCarries(chars0, w, q, op);
    } else {
      match op
      case NetAdd(crdt, row) => if Lands(q.doc.chars, crdt) { LandCarries(chars0, w, q, crdt, row); }
      case NetRemove(who, row) => if Live(q.doc.chars, who) { BuryCarries(chars0, w, q, who, row, false); }
    }
  }

  lemma ItemGrows(q: State, op: NetOp)
    requires Sound(q.doc)
    ensures q.doc.chars.Keys <= NetItem(q, op).doc.chars.Keys
  {}

  /** The worklist loses its head, which is of the set. */
  lemma HeadOfWork(chars0: Chars, w: World, q: State)
    requires Carries(chars0, w, q) && q.net.work != []
    ensures Carries(chars0, w, q.(net := q.net.(work := q.net.work[1..]))) && InWorld(w, q.net.work[0])
  {
    assert q.net.work[0] in q.net.work && forall op :: op in q.net.work[1..] ==> op in q.net.work;
  }

  lemma InWorldSparesRoot(chars0: Chars, w: World, op: NetOp)
    requires Closed(chars0, w) && InWorld(w, op)
    ensures SparesRoot(op)
  {}

  lemma {:induction false} DrainCarries(chars0: Chars, w: World, q: State)
    requires Closed(chars0, w) && Sound(q.doc) && Carries(chars0, w, q)
    ensures Carries(chars0, w, DrainNet(q)) && q.doc.chars.Keys <= DrainNet(q).doc.chars.Keys
    decreases NetPending(q), |q.net.work|
  {
    if q.net.work != [] {
      var q1 := q.(net := q.net.(work := q.net.work[1..]));
      HeadOfWork(chars0, w, q);
      ItemCarries(chars0, w, q1, q.net.work[0]);
      ItemGrows(q1, q.net.work[0]);
      DrainCarries(chars0, w, PopNet(q));
    }
  }

  lemma {:induction false} DrainStillKeeps(chars0: Chars, w: World, q: State, op: NetOp)
    requires Closed(chars0, w) && Sound(q.doc) && Carries(chars0, w, q) && Kept(q, op)
    ensures Kept(DrainNet(q), op)
    decreases NetPending(q), |q.net.work|
  {
    if q.net.work != [] {
      var q1, item := q.(net := q.net.(work := q.net.work[1..])), q.net.work[0];
      HeadOfWork(chars0, w, q);
      InWorldSparesRoot(chars0, w, item);
      PopKeeps(q, op);
      ItemKeeps(q1, item, op);
      ItemCarries(chars0, w, q1, item);
      DrainStillKeeps(chars0, w, PopNet(q), op);
    }
  }

  lemma GiveKeeps(chars0: Chars, w: World, q: State, op: NetOp, o: NetOp)
    requires Closed(chars0, w) && Sound(q.doc) && Carries(chars0, w, q) && q.net.work == [] && InWorld(w, op)
    requires o == op || Kept(q, o)
    ensures Kept(Deliver(q, op), o)
  {
    DeliverIsDrain(q, op);
    InWorldSparesRoot(chars0, w, op);
    ItemKeeps(q, op, o);
    ItemCarries(chars0, w, q, op);
    DrainStillKeeps(chars0, w, NetItem(q, op), o);
  }

  lemma GiveFrame(q: State, op: NetOp)
    requires Sound(q.doc) && Within(q)
    ensures Within(Deliver(q, op)) && SameEditorSide(q, Deliver(q, op))
  {
    match op
    case NetAdd(crdt, row) =>
      NetLandFrame(q, crdt, row);
      DrainNetFrame(NetLand(q, crdt, row));
      HandleWithin(q, Remote(crdt, row));
    case NetRemove(who, row) => HandleWithin(q, RemoteDelete(who, row));
  }

  lemma GiveCarries(chars0: Chars, w: World, q: State, op: NetOp)
    requires Closed(chars0, w) && Carries(chars0, w, q) && q.net.work == [] && InWorld(w, op)
    ensures Carries(chars0, w, Deliver(q, op)) && Deliver(q, op).net.work == []
    ensures q.doc.chars.Keys <= Deliver(q, op).doc.chars.Keys
  {
    assert Deliver(q, op) == DrainNet(NetItem(q, op)) by { DeliverIsDrain(q, op); }
    ItemCarries(chars0, w, q, op);
    ItemGrows(q, op);
    DrainCarries(chars0, w, NetItem(q, op));
  }

  lemma GiveNode(chars0: Chars, w: World, node: Node, op: Op)
    requires Closed(chars0, w) && NodeOk(chars0, w, node) && InWorld(w, OnTheWire(op))
    ensures NodeOk(chars0, w, Given(node, op)) && Given(node, op).q.ids == node.q.ids
  {
    GiveFrame(node.q, OnTheWire(op));
    GiveCarries(chars0, w, node.q, OnTheWire(op));
    forall o | o in Given(node, op).got ensures Kept(Given(node, op).q, OnTheWire(o)) {
      GiveKeeps(chars0, w, node.q, OnTheWire(op), OnTheWire(o));
    }
  }

  // ----- An editor types -----

  /** The fresh identity is nobody's. */
  lemma FreshIsNew(chars0: Chars, w: World, node: Node, op: IdeAdd)
    requires Closed(chars0, w) && NodeOk(chars0, w, node) && NamesRecorded(node.q, Local(op))
    ensures Lands(Goal(chars0, w), Fresh(node.q, op)) && Lands(node.q.doc.chars, Fresh(node.q, op))
  {
    TypeLands(node.q, op);
  }

  lemma BacklogSpared(chars0: Chars, w: World, chars: Chars, backlog: map<Ident, seq<NetOp>>, crdt: Crdt)
    requires Closed(chars0, w) && BacklogOk(w, chars, backlog) && crdt.who !in Goal(chars0, w)
    ensures BacklogOk(w, chars[crdt.who := crdt.relation], backlog)
  {
    forall k | k in backlog ensures k != crdt.who {
      assert backlog[k][0] in backlog[k];
      KeyIsKnown(chars0, w, backlog[k][0]);
    }
  }

  lemma LocalCarries(chars0: Chars, w: World, q: State, q': State, crdt: Crdt)
    requires Closed(chars0, w) && Carries(chars0, w, q) && Lands(Goal(chars0, w), crdt) && Lands(q.doc.chars, crdt)
    requires !crdt.relation.deleted && Sound(q'.doc) && q'.doc.chars == q.doc.chars[crdt.who := crdt.relation]
    requires q'.net == q.net
    ensures Closed(chars0, Plus(w, Insert(crdt))) && Carries(chars0, Plus(w, Insert(crdt)), q')
  {
    var w' := Plus(w, Insert(crdt));
    GoalAdds(chars0, w, crdt);
    CarriesGrows(chars0, w, w', q);
    LandPartial(chars0, w', q.doc.chars, crdt);
    BacklogSpared(chars0, w, q.doc.chars, q.net.backlog, crdt);
    BacklogGrows(w, w', q'.doc.chars, q.net.backlog);
  }

  ghost predicate Covers(chars: Chars, chars': Chars) {
    forall x :: x in chars ==> x in chars' && (chars[x].deleted ==> chars'[x].deleted)
  }

  lemma TombstoneCovers(chars: Chars, who: Ident)
    requires who in chars
    ensures Covers(chars, Tombstoned(chars, who))
  {}

  /** What was kept is kept by a state that has more in its tree and the same waiting. */
  lemma KeptGrows(q: State, q': State, op: NetOp)
    requires Kept(q, op) && q'.net == q.net
    requires Covers(q.doc.chars, q'.doc.chars)
    ensures Kept(q', op)
  {}

  lemma TypedGot(node: Node, q': State, op: Op)
    requires KeepsGot(node) && q'.net == node.q.net && Done(q', OnTheWire(op))
    requires Covers(node.q.doc.chars, q'.doc.chars)
    ensures KeepsGot(Node(q', node.got + {op}))
  {
    forall o | o in node.got + {op} ensures Kept(q', OnTheWire(o)) {
      if o in node.got { KeptGrows(node.q, q', OnTheWire(o)); }
    }
  }

  lemma JustOne(r: Request, q: State, op: Op)
    requires NamesRecorded(q, r) && Keyed(q, r) == [op]
    ensures (set o | o in Keyed(q, r)) == {op}
  {}

  lemma LocalNode(chars0: Chars, w: World, node: Node, op: IdeAdd)
    requires Closed(chars0, w) && NodeOk(chars0, w, node) && NamesRecorded(node.q, Local(op))
    ensures var w' := Plus(w, Insert(Fresh(node.q, op)));
      Closed(chars0, w') && NodeOk(chars0, w', Typing(node, Local(op))) &&
        Typing(node, Local(op)).q.ids.peer == node.q.ids.peer
  {
    var q', crdt := AddIde(node.q, op), Fresh(node.q, op);
    TypeLands(node.q, op);
    FreshIsNew(chars0, w, node, op);
    LocalCarries(chars0, w, node.q, q', crdt);
    assert Within(q') by { HandleWithin(node.q, Local(op)); }
    TypedGot(node, q', Insert(crdt));
    JustOne(Local(op), node.q, Insert(crdt));
    assert Typing(node, Local(op)) == Node(q', node.got + {Insert(crdt)});
  }

  lemma DeleteCarries(chars0: Chars, w: World, q: State, who: Ident, row: nat)
    requires Closed(chars0, w) && Carries(chars0, w, q) && Live(q.doc.chars, who) && who != ROOT
    ensures Closed(chars0, Plus(w, Delete(who))) && Carries(chars0, Plus(w, Delete(who)), RemoveOp(q, who, row, true))
    ensures var q' := RemoveOp(q, who, row, true);
      q'.doc.chars == Tombstoned(q.doc.chars, who) && q'.net == q.net && q'.ide == q.ide && q'.ids == q.ids
  {
    GoalBuries(chars0, w, who);
    CarriesGrows(chars0, w, Plus(w, Delete(who)), q);
    BuryCarries(chars0, Plus(w, Delete(who)), q, who, row, true);
  }

  lemma DeleteNode(chars0: Chars, w: World, node: Node, who: Ident, row: nat)
    requires Closed(chars0, w) && NodeOk(chars0, w, node) && Live(node.q.doc.chars, who) && who != ROOT
    ensures var w' := Plus(w, Delete(who));
      Closed(chars0, w') && NodeOk(chars0, w', Typing(node, LocalDelete(who, row))) &&
        Typing(node, LocalDelete(who, row)).q.ids == node.q.ids
  {
    var q' := RemoveOp(node.q, who, row, true);
    DeleteCarries(chars0, w, node.q, who, row);
    assert Within(q') by { HandleWithin(node.q, LocalDelete(who, row)); }
    TombstoneCovers(node.q.doc.chars, who);
    TypedGot(node, q', Delete(who));
    JustOne(LocalDelete(who, row), node.q, Delete(who));
    assert Typing(node, LocalDelete(who, row)) == Node(q', node.got + {Delete(who)});
  }

  /** A node that has nothing to do with the new operation. */
  lemma OtherNode(chars0: Chars, w: World, node: Node, op: Op)
    requires NodeOk(chars0, w, node) && GrowsInto(w, Plus(w, op))
    requires (op.Insert? ==> op.crdt.who.peer != node.q.ids.peer)
    ensures NodeOk(chars0, Plus(w, op), node)
  {
    CarriesGrows(chars0, w, Plus(w, op), node.q);
  }

  // ----- Runs -----

  lemma NodesAfter(chars0: Chars, w: World, nodes: seq<Node>, i: nat, node': Node, op: Op)
    requires AllOk(chars0, w, nodes) && Apart(nodes) && i < |nodes| && node'.q.ids.peer == nodes[i].q.ids.peer
    requires NodeOk(chars0, Plus(w, op), node') && GrowsInto(w, Plus(w, op))
    requires (op.Insert? ==> op.crdt.who.peer == node'.q.ids.peer)
    ensures AllOk(chars0, Plus(w, op), nodes[i := node']) && Apart(nodes[i := node'])
  {
    StillApart(nodes, i, node');
    var nodes' := nodes[i := node'];
    forall j | 0 <= j < |nodes'| ensures NodeOk(chars0, Plus(w, op), nodes'[j]) {
      if j != i {
        assert nodes[j].q.ids.peer != nodes[i].q.ids.peer;
        OtherNode(chars0, w, nodes[j], op);
      }
    }
  }

  lemma StillApart(nodes: seq<Node>, i: nat, node': Node)
    requires Apart(nodes) && i < |nodes| && node'.q.ids.peer == nodes[i].q.ids.peer
    ensures Apart(nodes[i := node'])
  {}

  lemma NodesGiven(chars0: Chars, w: World, nodes: seq<Node>, i: nat, node': Node)
    requires AllOk(chars0, w, nodes) && i < |nodes| && NodeOk(chars0, w, node')
    ensures AllOk(chars0, w, nodes[i := node'])
  {
    var nodes' := nodes[i := node'];
    forall j | 0 <= j < |nodes'| ensures NodeOk(chars0, w, nodes'[j]) {
      if j != i { assert NodeOk(chars0, w, nodes[j]); }
    }
  }

  lemma OneMoreSent(w: World, all: seq<Op>, op: Op)
    requires w == SentWorld(all) && Delivers(w, Wire(all)) && (op.Insert? ==> op.crdt.who !in w.adds)
    ensures SentWorld(all + [op]) == Plus(w, op) && Delivers(Plus(w, op), Wire(all + [op])) && GrowsInto(w, Plus(w, op))
  {
    assert (all + [op])[..|all|] == all;
    WireLast(all + [op]);
    DeliversOneMore(w, Wire(all), op);
  }

  lemma LocalReacts(chars0: Chars, net: Net, i: nat, op: IdeAdd)
    requires Inv(chars0, net) && SoundNet(net) && Possible(net, Type(i, Local(op)))
    ensures Inv(chars0, React(net, Type(i, Local(op))))
    ensures GrowsInto(SentWorld(net.all), SentWorld(React(net, Type(i, Local(op))).all))
  {
    var w, node := SentWorld(net.all), net.nodes[i];
    FreshIsNew(chars0, w, node, op);
    LocalNode(chars0, w, node, op);
    OneMoreSent(w, net.all, Insert(Fresh(node.q, op)));
    NodesAfter(chars0, w, net.nodes, i, Typing(node, Local(op)), Insert(Fresh(node.q, op)));
  }

  lemma DeleteReacts(chars0: Chars, net: Net, i: nat, who: Ident, row: nat)
    requires Inv(chars0, net) && SoundNet(net) && Possible(net, Type(i, LocalDelete(who, row)))
    ensures Inv(chars0, React(net, Type(i, LocalDelete(who, row))))
    ensures GrowsInto(SentWorld(net.all), SentWorld(React(net, Type(i, LocalDelete(who, row))).all))
  {
    var w, node := SentWorld(net.all), net.nodes[i];
    if who != ROOT && Live(node.q.doc.chars, who) {
      DeleteNode(chars0, w, node, who, row);
      OneMoreSent(w, net.all, Delete(who));
      NodesAfter(chars0, w, net.nodes, i, Typing(node, LocalDelete(who, row)), Delete(who));
    } else {
      NothingToDelete(node, who, row);
      NothingReacts(net, i, LocalDelete(who, row));
    }
  }

  lemma NothingToDelete(node: Node, who: Ident, row: nat)
    requires Sound(node.q.doc) && NamesRecorded(node.q, LocalDelete(who, row))
    requires (who == ROOT || !Live(node.q.doc.chars, who))
    ensures Typing(node, LocalDelete(who, row)) == node && Keyed(node.q, LocalDelete(who, row)) == []
  {
    var none: set<Op> := {};
    assert (set op | op in Keyed(node.q, LocalDelete(who, row))) == none;
    assert node.got + none == node.got;
  }

  lemma NothingReacts(net: Net, i: nat, r: Request)
    requires SoundNet(net) && Possible(net, Type(i, r)) && Typing(net.nodes[i], r) == net.nodes[i]
    requires Keyed(net.nodes[i].q, r) == []
    ensures React(net, Type(i, r)) == net
  {
    assert net.all + [] == net.all && net.nodes[i := net.nodes[i]] == net.nodes;
  }

  lemma GiveReacts(chars0: Chars, net: Net, i: nat, k: nat)
    requires Inv(chars0, net) && SoundNet(net) && Possible(net, Give(i, k))
    ensures Inv(chars0, React(net, Give(i, k)))
    ensures GrowsInto(SentWorld(net.all), SentWorld(React(net, Give(i, k)).all))
  {
    var w, sent := SentWorld(net.all), OnTheWire(net.all[k]);
    assert sent == Wire(net.all)[k] && sent in Wire(net.all);
    GiveNode(chars0, w, net.nodes[i], net.all[k]);
    NodesGiven(chars0, w, net.nodes, i, Given(net.nodes[i], net.all[k]));
    StillApart(net.nodes, i, Given(net.nodes[i], net.all[k]));
  }

  lemma ReactKeepsInv(chars0: Chars, net: Net, act: Act)
    requires Inv(chars0, net) && SoundNet(net) && Possible(net, act)
    ensures Inv(chars0, React(net, act)) && GrowsInto(SentWorld(net.all), SentWorld(React(net, act).all))
  {
    match act
    case Type(i, r) =>
      if r.Local? {
        LocalReacts(chars0, net, i, r.op);
      } else {
        DeleteReacts(chars0, net, i, r.who, r.row);
      }
    case Give(i, k) => GiveReacts(chars0, net, i, k);
  }

  lemma {:induction false} RunKeepsInv(chars0: Chars, net: Net, acts: seq<Act>)
    requires Inv(chars0, net) && SoundNet(net) && AllPossible(net, acts)
    ensures Inv(chars0, RunNet(net, acts)) && GrowsInto(SentWorld(net.all), SentWorld(RunNet(net, acts).all))
    decreases |acts|
  {
    if acts != [] {
      ReactKeepsInv(chars0, net, acts[0]);
      RunKeepsInv(chars0, React(net, acts[0]), acts[1..]);
    }
  }

  // ----- Once everything has arrived -----

  /** Replicas that start from one tree with nothing waiting and nothing broadcast. */
  ghost predicate Starts(chars0: Chars, net: Net) {
    && Rooted(chars0) && net.all == [] && Apart(net.nodes)
    && forall i :: 0 <= i < |net.nodes| ==> Begins(chars0, net.nodes[i])
  }

  ghost predicate Begins(chars0: Chars, node: Node) {
    && Sound(node.q.doc) && node.q.doc.chars == chars0 && node.q.net == NetSide(map[], []) && EditorIdle(node.q)
    && Within(node.q) && node.got == {}
  }

  lemma StartIsInv(chars0: Chars, net: Net)
    requires Starts(chars0, net)
    ensures SoundNet(net) && Inv(chars0, net)
  {
    assert Goal(chars0, SentWorld([])) == chars0;
    forall i | 0 <= i < |net.nodes| ensures Sound(net.nodes[i].q.doc) && NodeOk(chars0, SentWorld([]), net.nodes[i]) {
      assert Begins(chars0, net.nodes[i]);
    }
  }

  /** The replica has had everything that was broadcast, by others or by itself. */
  ghost predicate HasAll(net: Net, i: nat)
    requires i < |net.nodes|
  {
    forall op :: op in net.all ==> op in net.nodes[i].got
  }

  lemma AllIsDone(chars0: Chars, w: World, all: seq<Op>, node: Node)
    requires Closed(chars0, w) && Delivers(w, Wire(all)) && NodeOk(chars0, w, node)
    requires forall op :: op in all ==> op in node.got
    ensures node.q.doc.chars == Goal(chars0, w) && node.q.net == NetSide(map[], [])
  {
    var goal, q, ops := Goal(chars0, w), node.q, Wire(all);
    forall o | o in ops ensures Kept(q, o) {
      var i :| 0 <= i < |ops| && ops[i] == o;
      assert all[i] in all;
    }
    forall x | x in goal ensures x in q.doc.chars { AllArrive(chars0, w, q, ops, x); }
    forall k | k in q.net.backlog ensures false { NothingWaits(chars0, w, q, k); }
    forall x | x in goal ensures q.doc.chars[x] == goal[x] { RelationArrived(chars0, w, q, ops, x); }
  }

  /** Any number of editors typing at once, everything broadcast reaching everyone in any order, in
      between keystrokes, late or more than once: a replica that has had everything holds the tree of
      everything, with nothing waiting; so any two such replicas hold one tree. */
  lemma MeshHasOneTree(chars0: Chars, net: Net, acts: seq<Act>, i: nat)
    requires Starts(chars0, net) && SoundNet(net) && AllPossible(net, acts)
    requires i < |RunNet(net, acts).nodes| && HasAll(RunNet(net, acts), i)
    ensures var net' := RunNet(net, acts);
      net'.nodes[i].q.doc.chars == Goal(chars0, SentWorld(net'.all)) && net'.nodes[i].q.net == NetSide(map[], [])
  {
    StartIsInv(chars0, net);
    RunKeepsInv(chars0, net, acts);
    var net' := RunNet(net, acts);
    AllIsDone(chars0, SentWorld(net'.all), net'.all, net'.nodes[i]);
  }

  // ----- One document -----

  ghost predicate AllFaithful(nodes: seq<Node>) {
    forall i :: 0 <= i < |nodes| ==> Faithful(nodes[i].q.doc)
  }

  lemma LocalFaithful(chars0: Chars, w: World, last: World, node: Node, op: IdeAdd)
    requires Closed(chars0, w) && NodeOk(chars0, w, node) && NamesRecorded(node.q, Local(op)) && Faithful(node.q.doc)
    requires Closed(chars0, last) && AllClean(chars0, last) && GrowsInto(w, last)
    requires GrowsInto(Plus(w, Insert(Fresh(node.q, op))), last)
    ensures Faithful(Typing(node, Local(op)).q.doc)
  {
    TypeLands(node.q, op);
    PartialGrows(chars0, w, last, node.q.doc.chars);
    assert Fresh(node.q, op).who in Plus(w, Insert(Fresh(node.q, op))).adds;
    InPlaceOnTheWay(chars0, last, node.q.doc.chars, Fresh(node.q, op));
    InPlaceAddIsFaithful(node.q.doc, Fresh(node.q, op));
  }

  lemma ItemStaysFaithful(chars0: Chars, w: World, q: State, op: NetOp)
    requires Closed(chars0, w) && AllClean(chars0, w) && Carries(chars0, w, q) && InWorld(w, op) && Faithful(q.doc)
    ensures Faithful(NetItem(q, op).doc)
  {
    match op
    case NetAdd(crdt, row) => AddFaithful(chars0, w, q, crdt, row);
    case NetRemove(who, row) => RemoveIsFaithful(q.doc, who);
  }

  lemma {:induction false} DrainStaysFaithful(chars0: Chars, w: World, q: State)
    requires Closed(chars0, w) && AllClean(chars0, w) && Sound(q.doc) && Carries(chars0, w, q) && Faithful(q.doc)
    ensures Faithful(DrainNet(q).doc)
    decreases NetPending(q), |q.net.work|
  {
    if q.net.work != [] {
      var q1 := q.(net := q.net.(work := q.net.work[1..]));
      HeadOfWork(chars0, w, q);
      ItemStaysFaithful(chars0, w, q1, q.net.work[0]);
      ItemCarries(chars0, w, q1, q.net.work[0]);
      DrainStaysFaithful(chars0, w, PopNet(q));
    }
  }

  lemma GiveFaithful(chars0: Chars, w: World, q: State, op: NetOp)
    requires Closed(chars0, w) && AllClean(chars0, w) && Carries(chars0, w, q) && q.net.work == []
    requires InWorld(w, op) && Faithful(q.doc)
    ensures Faithful(Deliver(q, op).doc)
  {
    assert Deliver(q, op) == DrainNet(NetItem(q, op)) by { DeliverIsDrain(q, op); }
    ItemStaysFaithful(chars0, w, q, op);
    ItemCarries(chars0, w, q, op);
    DrainStaysFaithful(chars0, w, NetItem(q, op));
  }

  lemma DeleteFaithful(node: Node, who: Ident, row: nat)
    requires Sound(node.q.doc) && NamesRecorded(node.q, LocalDelete(who, row)) && Faithful(node.q.doc)
    ensures Faithful(Typing(node, LocalDelete(who, row)).q.doc)
  {
    RemoveIsFaithful(node.q.doc, who);
    assert RemoveOp(node.q, who, row, true).doc == Remove(node.q.doc, who);
  }

  lemma TypeFaithful(chars0: Chars, last: World, net: Net, i: nat, r: Request)
    requires Inv(chars0, net) && SoundNet(net) && Possible(net, Type(i, r)) && Faithful(net.nodes[i].q.doc)
    requires Closed(chars0, last) && AllClean(chars0, last)
    requires GrowsInto(SentWorld(net.all), last) && GrowsInto(SentWorld(React(net, Type(i, r)).all), last)
    ensures Faithful(Typing(net.nodes[i], r).q.doc)
  {
    var w, node := SentWorld(net.all), net.nodes[i];
    if r.Local? {
      assert SentWorld(React(net, Type(i, r)).all) == Plus(w, Insert(Fresh(node.q, r.op))) by {
        LastSent(net.all, Insert(Fresh(node.q, r.op)));
      }
      LocalFaithful(chars0, w, last, node, r.op);
    } else {
      DeleteFaithful(node, r.who, r.row);
    }
  }

  lemma GivenFaithful(chars0: Chars, last: World, net: Net, i: nat, k: nat)
    requires Inv(chars0, net) && SoundNet(net) && Possible(net, Give(i, k)) && Faithful(net.nodes[i].q.doc)
    requires Closed(chars0, last) && AllClean(chars0, last) && GrowsInto(SentWorld(net.all), last)
    ensures Faithful(Given(net.nodes[i], net.all[k]).q.doc)
  {
    var w, sent := SentWorld(net.all), OnTheWire(net.all[k]);
    assert sent == Wire(net.all)[k] && sent in Wire(net.all);
    assert NodeOk(chars0, w, net.nodes[i]);
    CarriesGrows(chars0, w, last, net.nodes[i].q);
    InWorldGrows(w, last, sent);
    GiveFaithful(chars0, last, net.nodes[i].q, sent);
  }

  lemma FaithfulAfter(nodes: seq<Node>, i: nat, node': Node)
    requires AllFaithful(nodes) && i < |nodes| && Faithful(node'.q.doc)
    ensures AllFaithful(nodes[i := node'])
  {}

  lemma ReactFaithful(chars0: Chars, last: World, net: Net, act: Act)
    requires Inv(chars0, net) && SoundNet(net) && Possible(net, act) && AllFaithful(net.nodes)
    requires Closed(chars0, last) && AllClean(chars0, last)
    requires GrowsInto(SentWorld(net.all), last) && GrowsInto(SentWorld(React(net, act).all), last)
    ensures AllFaithful(React(net, act).nodes)
  {
    match act
    case Type(i, r) =>
      TypeFaithful(chars0, last, net, i, r);
      FaithfulAfter(net.nodes, i, Typing(net.nodes[i], r));
    case Give(i, k) =>
      GivenFaithful(chars0, last, net, i, k);
      FaithfulAfter(net.nodes, i, Given(net.nodes[i], net.all[k]));
  }

  lemma LastSent(all: seq<Op>, op: Op)
    ensures SentWorld(all + [op]) == Plus(SentWorld(all), op)
  {
    assert (all + [op])[..|all|] == all;
  }

  lemma {:induction false} RunFaithful(chars0: Chars, last: World, net: Net, acts: seq<Act>)
    requires Inv(chars0, net) && SoundNet(net) && AllPossible(net, acts) && AllFaithful(net.nodes)
    requires Closed(chars0, last) && AllClean(chars0, last) && GrowsInto(SentWorld(RunNet(net, acts).all), last)
    ensures AllFaithful(RunNet(net, acts).nodes)
    decreases |acts|
  {
    if acts != [] {
      var net1 := React(net, acts[0]);
      ReactKeepsInv(chars0, net, acts[0]);
      RunKeepsInv(chars0, net1, acts[1..]);
      ReactFaithful(chars0, last, net, acts[0]);
      RunFaithful(chars0, last, net1, acts[1..]);
    }
  }

  /** If what all of them typed is clean in the final tree, any two replicas that have had everything
      show one document: the walk of the tree. */
  lemma MeshHasOneDocument(chars0: Chars, net: Net, acts: seq<Act>, i: nat, j: nat)
    requires Starts(chars0, net) && SoundNet(net) && AllFaithful(net.nodes) && AllPossible(net, acts)
    requires i < |RunNet(net, acts).nodes| && HasAll(RunNet(net, acts), i)
    requires j < |RunNet(net, acts).nodes| && HasAll(RunNet(net, acts), j)
    requires Closed(chars0, SentWorld(RunNet(net, acts).all)) && AllClean(chars0, SentWorld(RunNet(net, acts).all))
    ensures RunNet(net, acts).nodes[i].q.doc == RunNet(net, acts).nodes[j].q.doc
    ensures Faithful(RunNet(net, acts).nodes[i].q.doc)
  {
    var net' := RunNet(net, acts);
    StartIsInv(chars0, net);
    RunFaithful(chars0, SentWorld(net'.all), net, acts);
    MeshHasOneTree(chars0, net, acts, i);
    MeshHasOneTree(chars0, net, acts, j);
    FaithfulIsUnique(net'.nodes[i].q.doc, net'.nodes[j].q.doc);
  }
}
