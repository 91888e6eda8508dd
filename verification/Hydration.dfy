/** State transfer: a replica dumps its characters in arbitrary order as adds and removes, and
    replaying the dumps of any number of replicas joins their states. */
module Hydration {
  import opened Types
  import opened CharTree
  import opened Lists
  import opened Document
  import opened TreeOrder
  import opened Queue
  import opened Delivery
  import opened Convergence

  // ----- The dump -----

  function Revived(rel: Relation): Relation {
    rel.(deleted := false)
  }

  /** A live add, followed by a remove for a tombstone. */
  function DumpOne(x: Ident, rel: Relation): seq<NetOp> {
    [NetAdd(Crdt(x, Revived(rel)), 0)] + (if rel.deleted then [NetRemove(x, 0)] else [])
  }

  /** The dump of `state` when its map is iterated in the given order. */
  function Dump(state: Chars, order: seq<Ident>): seq<NetOp>
    requires forall x :: x in order ==> x in state
  {
    if order == [] then [] else
      var n := |order| - 1;
      Dump(state, order[..n]) + DumpOne(order[n], state[order[n]])
  }

  /** An order in which a map may be iterated. */
  ghost predicate Iterates(order: seq<Ident>, keys: set<Ident>) {
    Distinct(order) && forall x :: x in order <==> x in keys
  }

  /** `ops` is the dump of `state` for some order in which its map may be iterated. */
  ghost predicate IsDump(state: Chars, ops: seq<NetOp>) {
    exists order :: Iterates(order, state.Keys) && ops == Dump(state, order)
  }

  method ToNetworkOps(state: Chars) returns (ops: seq<NetOp>)
    ensures IsDump(state, ops)
  {
    ops := [];
    ghost var order: seq<Ident> := [];
    var rest := state.Keys;
    while rest != {}
      invariant rest <= state.Keys && Iterates(order, state.Keys - rest) && ops == Dump(state, order)
      decreases rest
    {
      var x :| x in rest;
      var relation := state[x];
      var deleted := relation.deleted;
      var live := relation.(deleted := false);
      ops := ops + [NetAdd(Crdt(x, live), 0)];
      if deleted {
        ops := ops + [NetRemove(x, 0)];
      }
      assert (order + [x])[..|order|] == order;
      order, rest := order + [x], rest - {x};
    }
    assert state.Keys - rest == state.Keys;
  }

  /** The set of operations that a state stands for. */
  function WorldOf(state: Chars): World {
    World(map x | x in state :: Revived(state[x]), set x | x in state && state[x].deleted)
  }

  function Join(w: World, w': World): World {
    World(w.adds + w'.adds, w.removed + w'.removed)
  }

  /** What several states stand for together. */
  function JoinAll(states: seq<Chars>): World {
    if states == [] then World(map[], {}) else Join(JoinAll(states[..|states| - 1]), WorldOf(states[|states| - 1]))
  }

  /** Identities mean the same characters everywhere. */
  ghost predicate Agree(states: seq<Chars>) {
    forall s: Chars, t: Chars, x :: s in states && t in states && x in s && x in t ==> Revived(s[x]) == Revived(t[x])
  }

  ghost predicate AllIterate(orders: seq<seq<Ident>>, states: seq<Chars>) {
    |orders| == |states| && forall i :: 0 <= i < |states| ==> Iterates(orders[i], states[i].Keys)
  }

  /** One dump after the other. */
  ghost function DumpAll(states: seq<Chars>, orders: seq<seq<Ident>>): seq<NetOp>
    requires AllIterate(orders, states)
  {
    if states == [] then [] else
      var n := |states| - 1;
      DumpAll(states[..n], orders[..n]) + Dump(states[n], orders[n])
  }

  lemma {:induction false} DumpContents(state: Chars, order: seq<Ident>, op: NetOp)
    requires forall x :: x in order ==> x in state
    ensures op in Dump(state, order) <==> exists x :: x in order && op in DumpOne(x, state[x])
  {
    if order != [] {
      var n := |order| - 1;
      DumpContents(state, order[..n], op);
      assert order == order[..n] + [order[n]];
    }
  }

  /** In a dump every character has its live add, and a tombstone its remove right behind the add. */
  lemma {:induction false} RemoveBehindAdd(state: Chars, order: seq<Ident>, x: Ident) returns (i: nat)
    requires (forall y :: y in order ==> y in state) && x in order
    ensures i < |Dump(state, order)| && Dump(state, order)[i] == NetAdd(Crdt(x, state[x].(deleted := false)), 0)
    ensures state[x].deleted ==> i + 1 < |Dump(state, order)| && Dump(state, order)[i + 1] == NetRemove(x, 0)
  {
    var n := |order| - 1;
    if order[n] == x {
      i := |Dump(state, order[..n])|;
    } else {
      assert order == order[..n] + [order[n]];
      i := RemoveBehindAdd(state, order[..n], x);
    }
  }

  lemma DumpDelivers(state: Chars, order: seq<Ident>)
    requires Iterates(order, state.Keys)
    ensures Delivers(WorldOf(state), Dump(state, order))
  {
    var w, ops := WorldOf(state), Dump(state, order);
    forall op | op in ops ensures InWorld(w, op) { DumpContents(state, order, op); }
    forall x | x in w.adds ensures exists op :: op in ops && op.NetAdd? && op.crdt.who == x {
      var op := DumpOne(x, state[x])[0];
      DumpContents(state, order, op);
    }
    forall x | x in w.removed ensures exists op :: op in ops && op.NetRemove? && op.who == x {
      var op := DumpOne(x, state[x])[1];
      DumpContents(state, order, op);
    }
  }

  lemma JoinDelivers(w: World, ops: seq<NetOp>, w': World, ops': seq<NetOp>)
    requires Delivers(w, ops) && Delivers(w', ops')
    requires forall x :: x in w.adds && x in w'.adds ==> w.adds[x] == w'.adds[x]
    ensures Delivers(Join(w, w'), ops + ops')
  {
    var both, all := Join(w, w'), ops + ops';
    forall x | x in both.adds ensures exists op :: op in all && op.NetAdd? && op.crdt.who == x {
      if x in w.adds { var op :| op in ops && op.NetAdd? && op.crdt.who == x; assert op in all; }
      else { var op :| op in ops' && op.NetAdd? && op.crdt.who == x; assert op in all; }
    }
    forall x | x in both.removed ensures exists op :: op in all && op.NetRemove? && op.who == x {
      if x in w.removed { var op :| op in ops && op.NetRemove? && op.who == x; assert op in all; }
      else { var op :| op in ops' && op.NetRemove? && op.who == x; assert op in all; }
    }
  }

  lemma {:induction false} JoinAllAdds(states: seq<Chars>, x: Ident)
    requires Agree(states)
    ensures var w := JoinAll(states);
      (x in w.adds <==> exists s: Chars :: s in states && x in s) &&
      forall s: Chars :: s in states && x in s ==> w.adds[x] == Revived(s[x])
  {
    if states != [] {
      var n := |states| - 1;
      assert states == states[..n] + [states[n]];
      JoinAllAdds(states[..n], x);
    }
  }

  lemma {:induction false} JoinAllRemoved(states: seq<Chars>, x: Ident)
    ensures x in JoinAll(states).removed <==> exists s: Chars :: s in states && x in s && s[x].deleted
  {
    if states != [] {
      var n := |states| - 1;
      assert states == states[..n] + [states[n]];
      JoinAllRemoved(states[..n], x);
    }
  }

  /** The joint set in terms of the states: recorded somewhere, removed if removed anywhere. */
  lemma JoinAllMeans(states: seq<Chars>)
    requires Agree(states)
    ensures var w := JoinAll(states);
      (forall x :: x in w.adds <==> exists s: Chars :: s in states && x in s) &&
      (forall s: Chars, x :: s in states && x in s ==> x in w.adds && w.adds[x] == Revived(s[x])) &&
      (forall x :: x in w.removed <==> exists s: Chars :: s in states && x in s && s[x].deleted)
  {
    forall x { JoinAllAdds(states, x); }
    forall x { JoinAllRemoved(states, x); }
  }

  lemma LastAgrees(states: seq<Chars>)
    requires Agree(states) && states != []
    ensures var n := |states| - 1;
      forall x :: x in JoinAll(states[..n]).adds && x in WorldOf(states[n]).adds ==>
        JoinAll(states[..n]).adds[x] == WorldOf(states[n]).adds[x]
  {
    var n := |states| - 1;
    var w := JoinAll(states[..n]);
    JoinAllMeans(states[..n]);
    forall x | x in w.adds && x in states[n] ensures w.adds[x] == Revived(states[n][x]) {
      var s: Chars :| s in states[..n] && x in s;
      assert s in states && states[n] in states;
    }
  }

  lemma {:induction false} DumpAllDelivers(states: seq<Chars>, orders: seq<seq<Ident>>)
    requires Agree(states) && AllIterate(orders, states)
    ensures Delivers(JoinAll(states), DumpAll(states, orders))
  {
    if states != [] {
      var n := |states| - 1;
      assert states == states[..n] + [states[n]];
      DumpAllDelivers(states[..n], orders[..n]);
      DumpDelivers(states[n], orders[n]);
      LastAgrees(states);
      JoinDelivers(JoinAll(states[..n]), DumpAll(states[..n], orders[..n]), WorldOf(states[n]),
        Dump(states[n], orders[n]));
    }
  }

  // ----- Replaying -----

  /** `joined` records what `chars` or one of `states` does, and has removed what one of them has. */
  ghost predicate IsJoin(joined: Chars, chars: Chars, states: seq<Chars>) {
    && (forall x :: x in joined <==> x in chars || exists s: Chars :: s in states && x in s)
    && (forall s: Chars, x :: s in states && x in s && x in joined ==> Revived(joined[x]) == Revived(s[x]))
    && (forall x :: x in chars && x in joined ==> Revived(joined[x]) == Revived(chars[x]))
    && (forall x :: x in joined ==>
          (joined[x].deleted <==>
            (x in chars && chars[x].deleted) || exists s: Chars :: s in states && x in s && s[x].deleted))
  }

  ghost predicate IsJoinOf(joined: Chars, chars: Chars, w: World) {
    && (forall x :: x in joined <==> x in chars || x in w.adds)
    && (forall x :: x in w.adds && x in joined ==> Revived(joined[x]) == w.adds[x])
    && (forall x :: x in chars && x in joined ==> Revived(joined[x]) == Revived(chars[x]))
    && (forall x :: x in joined ==> (joined[x].deleted <==> (x in chars && chars[x].deleted) || x in w.removed))
  }

  lemma GoalIsJoinOf(chars: Chars, w: World)
    requires Closed(chars, w)
    ensures IsJoinOf(Goal(chars, w), chars, w)
  {}

  lemma JoinOfStates(joined: Chars, chars: Chars, states: seq<Chars>)
    requires Agree(states) && IsJoinOf(joined, chars, JoinAll(states))
    ensures IsJoin(joined, chars, states)
  {
    JoinAllMeans(states);
    var w := JoinAll(states);
    forall s: Chars, x | s in states && x in s && x in joined ensures Revived(joined[x]) == Revived(s[x]) {
      assert x in w.adds && w.adds[x] == Revived(s[x]);
    }
  }

  /** Replaying the dumps of any replicas, each in any iteration order, joins their states into the
      replica: everything recorded anywhere is recorded, everything removed anywhere is removed. */
  lemma HydrationIsJoin(q: State, states: seq<Chars>, orders: seq<seq<Ident>>)
    requires WellFormed(q.doc) && Sound(q.doc) && q.anchored && q.net.backlog == map[] && q.net.work == []
    requires Agree(states) && AllIterate(orders, states)
    requires Closed(q.doc.chars, JoinAll(states)) && AllAnchored(q.doc.chars, JoinAll(states))
    ensures var q' := DeliverAll(q, DumpAll(states, orders));
      q'.net.backlog == map[] && q'.net.work == [] && WellFormed(q'.doc) && IsJoin(q'.doc.chars, q.doc.chars, states)
  {
    DumpAllDelivers(states, orders);
    GoalIsJoinOf(q.doc.chars, JoinAll(states));
    JoinOfStates(Goal(q.doc.chars, JoinAll(states)), q.doc.chars, states);
    AnyDeliveryOrder(q, JoinAll(states), DumpAll(states, orders));
  }

  /** What a replica sends. */
  function FullState(chars: Chars): Chars {
    chars - {ROOT}
  }

  lemma FullStateIsGoal(chars: Chars)
    requires Rooted(chars)
    ensures Goal(EMPTY.chars, WorldOf(FullState(chars))) == chars
    ensures Closed(EMPTY.chars, WorldOf(FullState(chars)))
  {
    EmptyIsFaithful();
    assert chars.Keys == EMPTY.chars.Keys + FullState(chars).Keys;
  }

  /** A file that holds only the sentinel takes over the sender's state, and if the sender's tree
      is clean and its document faithful, its document too. */
  lemma HydratesFromScratch(q: State, sender: Doc, order: seq<Ident>)
    requires q.doc == EMPTY && q.anchored && q.net.backlog == map[] && q.net.work == []
    requires Rooted(sender.chars) && Iterates(order, FullState(sender.chars).Keys)
    requires Closed(EMPTY.chars, WorldOf(FullState(sender.chars)))
    requires AllAnchored(EMPTY.chars, WorldOf(FullState(sender.chars)))
    ensures Sound(q.doc)
    ensures FullState(DeliverAll(q, Dump(FullState(sender.chars), order)).doc.chars) == FullState(sender.chars)
    ensures Faithful(sender) && AllClean(EMPTY.chars, WorldOf(FullState(sender.chars))) ==>
      DeliverAll(q, Dump(FullState(sender.chars), order)).doc == sender
  {
    EmptyIsFaithful();
    FaithfulIsWellFormed(EMPTY);
    var w, ops := WorldOf(FullState(sender.chars)), Dump(FullState(sender.chars), order);
    DumpDelivers(FullState(sender.chars), order);
    FullStateIsGoal(sender.chars);
    AnyDeliveryOrder(q, w, ops);
    if Faithful(sender) && AllClean(EMPTY.chars, w) {
      CleanDeliveryIsWalk(q, w, ops);
      FaithfulIsUnique(DeliverAll(q, ops).doc, sender);
    }
  }
}
