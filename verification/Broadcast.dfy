/** From editor to peers: what a replica broadcasts while its editor types is a closed set of
    operations, and delivering it elsewhere, in any order, gives the sender's tree. */
module Broadcast {
  import opened Types
  import opened CharTree
  import opened Document
  import opened Shape
  import opened Queue
  import opened QueueSafety
  import opened Delivery
  import opened Convergence

  // ----- What goes out -----

  function OutOf(e: Event): seq<Op> {
    match e
    case LocalAdd(sent, _) => [Insert(sent)]
    case LocalRemove(who) => [Delete(who)]
    case _ => []
  }

  /** The operations sent to peers, in the order of their callbacks. */
  function Outgoing(log: seq<Event>): seq<Op> {
    if log == [] then [] else Outgoing(log[..|log| - 1]) + OutOf(log[|log| - 1])
  }

  lemma OutgoingGrows(log: seq<Event>, e: Event)
    ensures Outgoing(log + [e]) == Outgoing(log) + OutOf(e)
  {
    assert (log + [e])[..|log|] == log;
  }

  function OnTheWire(op: Op): NetOp {
    match op
    case Insert(crdt) => NetAdd(crdt, 0)
    case Delete(who) => NetRemove(who, 0)
  }

  function Wire(ops: seq<Op>): (sent: seq<NetOp>)
    ensures |sent| == |ops| && forall i :: 0 <= i < |ops| ==> sent[i] == OnTheWire(ops[i])
  {
    seq(|ops|, i requires 0 <= i < |ops| => OnTheWire(ops[i]))
  }

  function Plus(w: World, op: Op): World {
    match op
    case Insert(crdt) => w.(adds := w.adds[crdt.who := crdt.relation])
    case Delete(who) => w.(removed := w.removed + {who})
  }

  /** The operations as a set. */
  function SentWorld(ops: seq<Op>): World {
    if ops == [] then World(map[], {}) else Plus(SentWorld(ops[..|ops| - 1]), ops[|ops| - 1])
  }

  // ----- Runs in which every operation has an effect -----

  ghost predicate Hits(d: Doc, op: Op) {
    match op
    case Insert(crdt) => Lands(d.chars, crdt) && !crdt.relation.deleted
    case Delete(who) => Live(d.chars, who) && who != ROOT
  }

  ghost predicate AllHit(d: Doc, ops: seq<Op>)
    requires Sound(d)
    decreases |ops|
  {
    ops == [] || (AllHit(d, ops[..|ops| - 1]) && Hits(Run(d, ops[..|ops| - 1]), ops[|ops| - 1]))
  }

  lemma {:induction false} RunSnoc(d: Doc, ops: seq<Op>, op: Op)
    requires Sound(d)
    ensures Run(d, ops + [op]) == Step(Run(d, ops), op)
    decreases |ops|
  {
    if ops == [] {
      assert (ops + [op])[1..] == [];
    } else {
      assert (ops + [op])[1..] == ops[1..] + [op];
      RunSnoc(Step(d, ops[0]), ops[1..], op);
    }
  }

  lemma AllHitSnoc(d: Doc, ops: seq<Op>, op: Op)
    requires Sound(d)
    ensures AllHit(d, ops + [op]) <==> AllHit(d, ops) && Hits(Run(d, ops), op)
  {
    assert (ops + [op])[..|ops|] == ops;
  }

  lemma LastOf(ops: seq<Op>)
    requires ops != []
    ensures ops == ops[..|ops| - 1] + [ops[|ops| - 1]]
  {}

  /** Such a run builds the tree that its operations describe as a set. */
  lemma {:induction false} RunIsWorld(d: Doc, ops: seq<Op>)
    requires Sound(d) && AllHit(d, ops)
    ensures Closed(d.chars, SentWorld(ops)) && Run(d, ops).chars == Goal(d.chars, SentWorld(ops))
    ensures forall x :: x in SentWorld(ops).adds ==> x !in d.chars
    decreases |ops|
  {
    if ops == [] {
      assert Goal(d.chars, SentWorld(ops)) == d.chars;
    } else {
      var before, op := ops[..|ops| - 1], ops[|ops| - 1];
      RunIsWorld(d, before);
      LastOf(ops);
      RunSnoc(d, before, op);
      match op {
        case Insert(crdt) => GoalAdds(d.chars, SentWorld(before), crdt);
        case Delete(who) => GoalBuries(d.chars, SentWorld(before), who);
      }
    }
  }

  lemma GoalAdds(chars: Chars, w: World, crdt: Crdt)
    requires Closed(chars, w) && Lands(Goal(chars, w), crdt) && !crdt.relation.deleted
    ensures Closed(chars, Plus(w, Insert(crdt)))
    ensures Goal(chars, Plus(w, Insert(crdt))) == Goal(chars, w)[crdt.who := crdt.relation]
  {
    assert Goal(chars, Plus(w, Insert(crdt))) ==
      Goal(chars, w)[crdt.who := crdt.relation] by { GoalWithAdd(chars, w, crdt); }
    RootedAfterAdd(Goal(chars, w), crdt.who, crdt.relation);
  }

  lemma GoalWithAdd(chars: Chars, w: World, crdt: Crdt)
    requires crdt.who !in chars && crdt.who !in w.adds && crdt.who !in w.removed
    ensures Goal(chars, Plus(w, Insert(crdt))) == Goal(chars, w)[crdt.who := crdt.relation]
  {}

  lemma GoalBuries(chars: Chars, w: World, who: Ident)
    requires Closed(chars, w) && who in Goal(chars, w) && who != ROOT
    ensures Closed(chars, Plus(w, Delete(who))) && Goal(chars, Plus(w, Delete(who))) == Tombstoned(Goal(chars, w), who)
  {
    assert Goal(chars, Plus(w, Delete(who))) == Tombstoned(Goal(chars, w), who);
    RootedAfterTombstone(Goal(chars, w), who);
  }

  // ----- Delivering in the order sent -----

  lemma LastIsUnmet(d: Doc, ops: seq<Op>)
    requires Sound(d) && ops != [] && AllHit(d, ops)
    ensures AllHit(d, ops[..|ops| - 1])
    ensures ops[|ops| - 1].Insert? ==> ops[|ops| - 1].crdt.who !in SentWorld(ops[..|ops| - 1]).adds
  {
    RunIsWorld(d, ops[..|ops| - 1]);
  }

  lemma WireLast(ops: seq<Op>)
    requires ops != []
    ensures Wire(ops) == Wire(ops[..|ops| - 1]) + [OnTheWire(ops[|ops| - 1])]
  {}

  /** What was sent delivers the set, each operation once. */
  lemma {:induction false} WireDelivers(d: Doc, ops: seq<Op>)
    requires Sound(d) && AllHit(d, ops)
    ensures Delivers(SentWorld(ops), Wire(ops))
    decreases |ops|
  {
    if ops != [] {
      var before, op := ops[..|ops| - 1], ops[|ops| - 1];
      LastIsUnmet(d, ops);
      WireDelivers(d, before);
      WireLast(ops);
      DeliversOneMore(SentWorld(before), Wire(before), op);
    }
  }

  lemma DeliversOneMore(w: World, sent: seq<NetOp>, op: Op)
    requires Delivers(w, sent) && (op.Insert? ==> op.crdt.who !in w.adds)
    ensures Delivers(Plus(w, op), sent + [OnTheWire(op)])
  {
    var w', all := Plus(w, op), sent + [OnTheWire(op)];
    assert all[|sent|] == OnTheWire(op);
    assert forall o :: o in sent ==> o in all;
    forall o | o in all ensures InWorld(w', o) { assert o in sent ==> InWorld(w, o); }
    forall x | x in w'.adds ensures exists o :: o in all && o.NetAdd? && o.crdt.who == x {
      if x in w.adds {
        var o :| o in sent && o.NetAdd? && o.crdt.who == x;
        assert o in all;
      } else {
        assert OnTheWire(op) in all;
      }
    }
    forall x | x in w'.removed ensures exists o :: o in all && o.NetRemove? && o.who == x {
      if x in w.removed {
        var o :| o in sent && o.NetRemove? && o.who == x;
        assert o in all;
      } else {
        assert OnTheWire(op) in all;
      }
    }
  }

  /** In the order sent, nothing waits, and the receiver makes the sender's run. */
  lemma {:induction false} InOrderIsRun(q: State, ops: seq<Op>)
    requires Sound(q.doc) && q.net == NetSide(map[], []) && AllHit(q.doc, ops)
    ensures DeliverAll(q, Wire(ops)).doc == Run(q.doc, ops) && DeliverAll(q, Wire(ops)).net == NetSide(map[], [])
    decreases |ops|
  {
    if ops != [] {
      var before, op := ops[..|ops| - 1], ops[|ops| - 1];
      InOrderIsRun(q, before);
      LastOf(ops);
      RunSnoc(q.doc, before, op);
      WireLast(ops);
      DeliverConcat(q, Wire(before), [OnTheWire(op)]);
      assert [OnTheWire(op)][1..] == [];
      DeliverAtOnce(DeliverAll(q, Wire(before)), op);
    }
  }

  lemma DeliverAtOnce(q: State, op: Op)
    requires Sound(q.doc) && q.net == NetSide(map[], []) && Hits(q.doc, op)
    ensures Deliver(q, OnTheWire(op)).doc == Step(q.doc, op) && Deliver(q, OnTheWire(op)).net == NetSide(map[], [])
  {
    if op.Insert? { DeliverAddAtOnce(q, op.crdt, 0); }
  }

  // ----- The sender -----

  /** Since the log had `n` entries, the document has changed as the broadcasts say. */
  ghost predicate Replays(d0: Doc, n: nat, q: State)
    requires Sound(d0)
  {
    n <= |q.log| && AllHit(d0, Outgoing(q.log[n..])) && Run(d0, Outgoing(q.log[n..])) == q.doc
  }

  lemma SuffixOut(log: seq<Event>, n: nat, e: Event)
    requires n <= |log|
    ensures Outgoing((log + [e])[n..]) == Outgoing(log[n..]) + OutOf(e)
  {
    assert (log + [e])[n..] == log[n..] + [e];
    OutgoingGrows(log[n..], e);
  }

  lemma ReplaysMore(d0: Doc, n: nat, q: State, q': State, e: Event)
    requires Sound(d0) && Sound(q.doc) && Replays(d0, n, q) && q'.log == q.log + [e]
    requires if OutOf(e) == [] then q'.doc == q.doc else Hits(q.doc, OutOf(e)[0]) && q'.doc == Step(q.doc, OutOf(e)[0])
    ensures Replays(d0, n, q')
  {
    var ops := Outgoing(q.log[n..]);
    SuffixOut(q.log, n, e);
    if OutOf(e) == [] {
      assert ops + OutOf(e) == ops;
    } else {
      RunSnoc(d0, ops, OutOf(e)[0]);
      AllHitSnoc(d0, ops, OutOf(e)[0]);
    }
  }

  lemma ReceiveReplays(d0: Doc, n: nat, q: State, op: IdeAdd)
    requires Sound(d0) && Sound(q.doc) && Replays(d0, n, q) && q.counter < MAX_U32
    ensures Replays(d0, n, Receive(q, op))
  {
    ReplaysMore(d0, n, q, Receive(q, op), Confirmed(op.tag, Ident(q.counter + 1, q.ids.peer)));
  }

  lemma IdeLandReplays(d0: Doc, n: nat, q: State, op: IdeAdd)
    requires Sound(d0) && Sound(q.doc) && Replays(d0, n, q)
    ensures Replays(d0, n, IdeLand(q, op))
  {
    var parent := Resolve(q, op.parent);
    if parent.Some? {
      var crdt := IdeCrdt(q, op, parent.value);
      if Lands(q.doc.chars, crdt) {
        ReplaysMore(d0, n, q, IdeLand(q, op), LocalAdd(crdt, Shown(Inserted(q.doc, crdt), crdt)));
      }
    }
  }

  lemma RemoveReplays(d0: Doc, n: nat, q: State, who: Ident, row: nat)
    requires Sound(d0) && Sound(q.doc) && Replays(d0, n, q)
    ensures Replays(d0, n, RemoveOp(q, who, row, true))
  {
    if Live(q.doc.chars, who) && who != ROOT { ReplaysMore(d0, n, q, RemoveOp(q, who, row, true), LocalRemove(who)); }
  }

  lemma {:induction false} DrainIdeReplays(d0: Doc, n: nat, q: State)
    requires Sound(d0) && Sound(q.doc) && Replays(d0, n, q)
    ensures Replays(d0, n, DrainIde(q))
    decreases IdePending(q), |q.ide.work|
  {
    if q.ide.work != [] {
      IdeLandReplays(d0, n, q.(ide := q.ide.(work := q.ide.work[1..])), q.ide.work[0]);
      DrainIdeReplays(d0, n, PopIde(q));
    }
  }

  lemma AddIdeReplays(d0: Doc, n: nat, q: State, op: IdeAdd)
    requires Sound(d0) && Sound(q.doc) && Replays(d0, n, q) && q.counter < MAX_U32 && Within(q)
    ensures Replays(d0, n, AddIde(q, op))
  {
    ReceiveReplays(d0, n, q, op);
    ReceiveWithin(q, op);
    IdeFirstIsLand(Receive(q, op), op);
    IdeLandReplays(d0, n, Receive(q, op), op);
    DrainIdeReplays(d0, n, IdeFirst(Receive(q, op), op));
  }

  /** Requests of this replica's own editor. */
  predicate FromEditor(requests: seq<Request>) {
    forall r :: r in requests ==> r.Local? || r.LocalDelete?
  }

  /** While only the editor is at work, every change of the document is broadcast, once and in order. */
  lemma {:induction false} ServeReplays(d0: Doc, n: nat, q: State, requests: seq<Request>)
    requires Sound(d0) && Sound(q.doc) && Replays(d0, n, q) && Within(q) && AllSensible(q, requests)
    requires FromEditor(requests)
    ensures Replays(d0, n, Serve(q, requests))
    decreases |requests|
  {
    if requests != [] {
      var r := requests[0];
      assert r in requests;
      if r.Local? { AddIdeReplays(d0, n, q, r.op); } else { RemoveReplays(d0, n, q, r.who, r.row); }
      HandleWithin(q, r);
      ServeReplays(d0, n, Handle(q, r), requests[1..]);
    }
  }

  // ----- The theorem -----

  /** What the sender's editor made of the document, as operations for its peers. */
  ghost function Typed(q: State, requests: seq<Request>): seq<Op>
    requires Sound(q.doc) && |q.log| <= |Serve(q, requests).log|
  {
    Outgoing(Serve(q, requests).log[|q.log|..])
  }

  /** The broadcasts of any editing session form a causally closed set that describes the sender's
      tree, and they make the sender's document when replayed in order. */
  lemma SessionIsBroadcast(q: State, requests: seq<Request>)
    requires Sound(q.doc) && Within(q) && AllSensible(q, requests) && FromEditor(requests)
    ensures |q.log| <= |Serve(q, requests).log|
    ensures AllHit(q.doc, Typed(q, requests)) && Run(q.doc, Typed(q, requests)) == Serve(q, requests).doc
    ensures var w := SentWorld(Typed(q, requests));
      Closed(q.doc.chars, w) && Goal(q.doc.chars, w) == Serve(q, requests).doc.chars &&
        Delivers(w, Wire(Typed(q, requests)))
  {
    assert q.log[|q.log|..] == [];
    ServeReplays(q.doc, |q.log|, q, requests);
    RunIsWorld(q.doc, Typed(q, requests));
    WireDelivers(q.doc, Typed(q, requests));
  }

  /** A peer that starts from the sender's tree, and gets the broadcasts of an editing session in any
      order and with any repeats, has the sender's tree with nothing waiting, if the set is anchored. */
  lemma PeerHasSendersTree(q: State, requests: seq<Request>, peer: State, ops: seq<NetOp>)
    requires Sound(q.doc) && Within(q) && AllSensible(q, requests) && FromEditor(requests)
    requires |q.log| <= |Serve(q, requests).log| && Closed(q.doc.chars, SentWorld(Typed(q, requests)))
    requires WellFormed(peer.doc) && Sound(peer.doc) && peer.anchored && peer.net == NetSide(map[], [])
    requires peer.doc.chars == q.doc.chars
    requires AllAnchored(q.doc.chars, SentWorld(Typed(q, requests))) && Delivers(SentWorld(Typed(q, requests)), ops)
    ensures DeliverAll(peer, ops).doc.chars == Serve(q, requests).doc.chars
    ensures DeliverAll(peer, ops).net == NetSide(map[], [])
  {
    SessionIsBroadcast(q, requests);
    AnyDeliveryOrder(peer, SentWorld(Typed(q, requests)), ops);
  }

  /** If the set is clean too, the peer shows the sender's document. */
  lemma PeerShowsSendersDocument(q: State, requests: seq<Request>, peer: State, ops: seq<NetOp>)
    requires Sound(q.doc) && Within(q) && AllSensible(q, requests) && FromEditor(requests)
    requires |q.log| <= |Serve(q, requests).log| && Closed(q.doc.chars, SentWorld(Typed(q, requests)))
    requires Ready(peer) && peer.doc == q.doc
    requires AllClean(q.doc.chars, SentWorld(Typed(q, requests))) && Delivers(SentWorld(Typed(q, requests)), ops)
    ensures DeliverAll(peer, ops).doc == Serve(q, requests).doc
  {
    var sent := Typed(q, requests);
    SessionIsBroadcast(q, requests);
    InOrderIsRun(peer, sent);
    CleanReplicasConverge(peer, SentWorld(sent), ops, peer, SentWorld(sent), Wire(sent));
  }
}
