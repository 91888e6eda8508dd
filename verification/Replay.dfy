/** In which order remote operations that had to wait are replayed: in the order in which they came,
    and whatever they let go in turn behind all of them. */
module Replay {
  import opened Types
  import opened Lists
  import opened Document
  import opened Queue
  import opened QueueSafety
  import opened Delivery

  // ----- One generation after the other -----

  ghost function WithWork(q: State, work: seq<NetOp>): State {
    q.(net := q.net.(work := work))
  }

  /** The operations one after the other; what they let go is queued. */
  ghost function Items(q: State, ops: seq<NetOp>): (q': State)
    requires Sound(q.doc)
    ensures Sound(q'.doc)
    decreases |ops|
  {
    if ops == [] then q else Items(NetItem(q, ops[0]), ops[1..])
  }

  /** Everything that waited for the identity which the operation adds. */
  function LetGo(q: State, op: NetOp): seq<NetOp> {
    match op
    case NetAdd(crdt, _) =>
      if crdt.who != ROOT && Lands(q.doc.chars, crdt) then Waiting(q.net.backlog, crdt.who) else []
    case NetRemove(_, _) => []
  }

  /** What an operation lets go queues up behind everything that is to be replayed already. */
  lemma ItemLetsGo(q: State, op: NetOp, work: seq<NetOp>)
    requires Sound(q.doc)
    ensures NetItem(WithWork(q, work), op) == WithWork(NetItem(q, op), work + LetGo(q, op))
  {
    match op
    case NetAdd(crdt, row) => AddLetsGo(q, crdt, row, work);
    case NetRemove(who, row) => RemoveLetsGo(q, who, row, work);
  }

  lemma AddLetsGo(q: State, crdt: Crdt, row: nat, work: seq<NetOp>)
    requires Sound(q.doc)
    ensures NetLand(WithWork(q, work), crdt, row) == WithWork(NetLand(q, crdt, row), work + LetGo(q, NetAdd(crdt, row)))
  {
    if crdt.who != ROOT && Lands(q.doc.chars, crdt) {
      assert Shown(Land(WithWork(q, work), crdt).doc, crdt) == Shown(Land(q, crdt).doc, crdt);
    } else {
      assert work + [] == work;
    }
  }

  lemma RemoveLetsGo(q: State, who: Ident, row: nat, work: seq<NetOp>)
    ensures RemoveOp(WithWork(q, work), who, row, false) ==
      WithWork(RemoveOp(q, who, row, false), work + LetGo(q, NetRemove(who, row)))
  {
    assert work + [] == work;
  }

  lemma PopsFirst(q: State, item: NetOp, rest: seq<NetOp>)
    requires Sound(q.doc)
    ensures DrainNet(WithWork(q, [item] + rest)) == DrainNet(NetItem(WithWork(q, rest), item))
  {
    assert ([item] + rest)[1..] == rest;
  }

  lemma ItemsFirst(q: State, item: NetOp, rest: seq<NetOp>)
    requires Sound(q.doc)
    ensures Items(q, [item] + rest) == Items(NetItem(q, item), rest)
  {
    assert ([item] + rest)[1..] == rest;
  }

  lemma DrainsFirst(q: State, item: NetOp, rest: seq<NetOp>, rest': seq<NetOp>)
    requires Sound(q.doc) && rest' == rest + LetGo(q, item)
    ensures DrainNet(WithWork(q, [item] + rest)) == DrainNet(WithWork(NetItem(q, item), rest'))
  {
    var q1 := NetItem(WithWork(q, rest), item);
    assert q1 == WithWork(NetItem(q, item), rest') by { ItemLetsGo(q, item, rest); }
    PopsFirst(q, item, rest);
  }

  lemma HandlesFirst(q: State, item: NetOp, rest: seq<NetOp>, work: seq<NetOp>, work': seq<NetOp>)
    requires Sound(q.doc) && work' == work + LetGo(q, item)
    ensures Items(WithWork(q, work), [item] + rest) == Items(WithWork(NetItem(q, item), work'), rest)
  {
    var q1 := NetItem(WithWork(q, work), item);
    assert q1 == WithWork(NetItem(q, item), work') by { ItemLetsGo(q, item, work); }
    ItemsFirst(WithWork(q, work), item, rest);
  }

  lemma {:induction false} BehindTheFirst(q: State, first: seq<NetOp>, work: seq<NetOp>)
    requires Sound(q.doc)
    ensures DrainNet(WithWork(q, first + work)) == DrainNet(Items(WithWork(q, work), first))
    decreases |first|
  {
    if first == [] {
      assert first + work == work;
    } else {
      var item, rest := first[0], first[1..];
      var work' := work + LetGo(q, item);
      assert first == [item] + rest;
      assert DrainNet(WithWork(q, first + work)) == DrainNet(WithWork(NetItem(q, item), rest + work')) by {
        Regroup([item], rest, work);
        Regroup(rest, work, LetGo(q, item));
        DrainsFirst(q, item, rest + work, rest + work');
      }
      assert Items(WithWork(q, work), first) == Items(WithWork(NetItem(q, item), work'), rest) by {
        HandlesFirst(q, item, rest, work, work');
      }
      BehindTheFirst(NetItem(q, item), rest, work');
    }
  }

  /** A replay handles all that is queued, in order, before anything that this lets go. */
  lemma GenerationByGeneration(q: State)
    requires Sound(q.doc)
    ensures DrainNet(q) == DrainNet(Items(WithWork(q, []), q.net.work))
  {
    assert q.net.work + [] == q.net.work && WithWork(q, q.net.work) == q;
    BehindTheFirst(q, q.net.work, []);
  }

  // ----- The counter -----

  /** `h` is the larger of `c` and the ids that the operations add. */
  predicate Highest(c: u32, ops: seq<NetOp>, h: u32) {
    && c <= h && (forall op :: op in ops && op.NetAdd? ==> op.crdt.who.id <= h)
    && (h == c || exists op :: op in ops && op.NetAdd? && op.crdt.who.id == h)
  }

  lemma HighestFirst(c: u32, c': u32, ops: seq<NetOp>, h: u32)
    requires ops != [] && Highest(c, [ops[0]], c') && Highest(c', ops[1..], h)
    ensures Highest(c, ops, h)
  {
    assert ops == [ops[0]] + ops[1..] && ops[0] in ops;
    if h != c {
      var op :| (op in ops[1..] || op in [ops[0]]) && op.NetAdd? && op.crdt.who.id == h;
      assert op in ops;
    }
  }

  lemma ItemCounter(q: State, op: NetOp)
    requires Sound(q.doc)
    ensures Highest(q.counter, [op], NetItem(q, op).counter)
  {
    assert op in [op];
  }

  lemma {:induction false} ItemsCounter(q: State, ops: seq<NetOp>)
    requires Sound(q.doc)
    ensures Highest(q.counter, ops, Items(q, ops).counter)
    decreases |ops|
  {
    if ops != [] {
      ItemCounter(q, ops[0]);
      ItemsCounter(NetItem(q, ops[0]), ops[1..]);
      HighestFirst(q.counter, NetItem(q, ops[0]).counter, ops, Items(q, ops).counter);
    }
  }

  lemma {:induction false} DrainCounter(q: State)
    requires Sound(q.doc) && Within(q)
    ensures DrainNet(q).counter == q.counter
    decreases NetPending(q), |q.net.work|
  {
    if q.net.work != [] {
      var q1, item := WithWork(q, q.net.work[1..]), q.net.work[0];
      assert item in q.net.work && NetWithin(q.counter)(item);
      assert Within(PopNet(q)) by {
        HeadWithin(q);
        ItemWithin(q1, item);
      }
      WithinRatchetsNot(q1, item);
      DrainCounter(PopNet(q));
    }
  }

  lemma WithinRatchetsNot(q: State, item: NetOp)
    requires Sound(q.doc) && NetWithin(q.counter)(item)
    ensures NetItem(q, item).counter == q.counter
  {}

  lemma HeadWithin(q: State)
    requires Within(q) && q.net.work != []
    ensures Within(WithWork(q, q.net.work[1..]))
  {
    assert forall op :: op in q.net.work[1..] ==> op in q.net.work;
  }

  lemma ItemWithin(q: State, item: NetOp)
    requires Sound(q.doc) && Within(q)
    ensures Within(NetItem(q, item))
  {
    match item
    case NetAdd(crdt, row) => NetLandWithin(q, crdt, row);
    case NetRemove(who, row) => RemoveWithin(q, who, row, false);
  }

  /** Whatever waits and is replayed: after any deliveries the counter is exactly the larger of what it
      was and the highest id delivered. */
  lemma {:induction false} CounterIsHighest(q: State, ops: seq<NetOp>)
    requires Sound(q.doc) && Within(q) && q.net.work == []
    ensures Highest(q.counter, ops, DeliverAll(q, ops).counter)
    decreases |ops|
  {
    if ops != [] {
      var q1 := Deliver(q, ops[0]);
      DeliverIsDrain(q, ops[0]);
      ItemCounter(q, ops[0]);
      ItemWithin(q, ops[0]);
      DrainCounter(NetItem(q, ops[0]));
      DrainNetWithin(NetItem(q, ops[0]));
      CounterIsHighest(q1, ops[1..]);
      HighestFirst(q.counter, q1.counter, ops, DeliverAll(q, ops).counter);
    }
  }

  // ----- Waiting for one identity -----

  predicate WaitsFor(k: Ident, op: NetOp) {
    Key(op) == k && SparesRoot(op)
  }

  /** Nothing has changed but that `ops` wait for `k`, last, in this order; and the counter. */
  ghost predicate Parked(q: State, k: Ident, ops: seq<NetOp>, q': State) {
    && q' == q.(counter := q'.counter, net := q.net.(backlog := q.net.backlog[k := Waiting(q.net.backlog, k) + ops]))
    && Highest(q.counter, ops, q'.counter)
  }

  lemma ParksLast(q: State, k: Ident, op: NetOp)
    requires Sound(q.doc) && k !in q.doc.chars && WaitsFor(k, op)
    ensures Parked(q, k, [op], Deliver(q, op))
  {
    assert op in [op];
  }

  lemma ParkedFirst(q: State, k: Ident, ops: seq<NetOp>, q1: State, q': State)
    requires |ops| > 1 && Parked(q, k, [ops[0]], q1) && Parked(q1, k, ops[1..], q')
    ensures Parked(q, k, ops, q')
  {
    HighestFirst(q.counter, q1.counter, ops, q'.counter);
    assert Waiting(q.net.backlog, k) + [ops[0]] + ops[1..] == Waiting(q.net.backlog, k) + ops;
  }

  /** What waits for one identity waits in the order in which it came. */
  lemma {:induction false} WaitsInOrder(q: State, k: Ident, ops: seq<NetOp>)
    requires Sound(q.doc) && k !in q.doc.chars && ops != [] && forall op :: op in ops ==> WaitsFor(k, op)
    ensures Parked(q, k, ops, DeliverAll(q, ops))
    decreases |ops|
  {
    ParksLast(q, k, ops[0]);
    if |ops| == 1 {
      assert ops == [ops[0]] && ops[1..] == [];
    } else {
      WaitsInOrder(Deliver(q, ops[0]), k, ops[1..]);
      ParkedFirst(q, k, ops, Deliver(q, ops[0]), DeliverAll(q, ops));
    }
  }

  // ----- What is there for everybody -----

  /** Every operation finds its parent or its target, and lets nothing go. */
  ghost predicate Quiet(q: State, ops: seq<NetOp>) {
    forall op :: op in ops ==> SparesRoot(op) && Key(op) in q.doc.chars && LetsNothingGo(q, op)
  }

  predicate LetsNothingGo(q: State, op: NetOp) {
    op.NetAdd? ==> op.crdt.who !in q.net.backlog
  }

  lemma QuietItem(q: State, op: NetOp)
    requires Sound(q.doc) && SparesRoot(op) && Key(op) in q.doc.chars && LetsNothingGo(q, op)
    ensures NetItem(q, op).net == q.net && q.doc.chars.Keys <= NetItem(q, op).doc.chars.Keys
  {
    match op
    case NetAdd(crdt, row) => QuietAdd(q, crdt, row);
    case NetRemove(who, row) =>
  }

  lemma QuietAdd(q: State, crdt: Crdt, row: nat)
    requires Sound(q.doc) && crdt.who != ROOT && crdt.relation.parent in q.doc.chars && crdt.who !in q.net.backlog
    ensures NetLand(q, crdt, row).net == q.net && q.doc.chars.Keys <= NetLand(q, crdt, row).doc.chars.Keys
  {
    assert q.net.backlog - {crdt.who} == q.net.backlog && q.net.work + [] == q.net.work;
  }

  /** Such operations have the same effect replayed and delivered, and leave the backlog alone. */
  lemma {:induction false} QuietItems(q: State, ops: seq<NetOp>)
    requires Sound(q.doc) && q.net.work == [] && Quiet(q, ops)
    ensures Items(q, ops).net == q.net && Items(q, ops) == DeliverAll(q, ops)
    decreases |ops|
  {
    if ops != [] {
      assert ops[0] in ops;
      QuietItem(q, ops[0]);
      DeliverIsDrain(q, ops[0]);
      QuietItems(NetItem(q, ops[0]), ops[1..]);
    }
  }

  lemma ItemCounterApart(q: State, c: u32, op: NetOp)
    requires Sound(q.doc)
    ensures NetItem(q.(counter := c), op) == NetItem(q, op).(counter := NetItem(q.(counter := c), op).counter)
  {
    match op
    case NetAdd(crdt, row) => AddCounterApart(q, c, crdt, row);
    case NetRemove(who, row) => RemoveCounterApart(q, c, who, row);
  }

  lemma RemoveCounterApart(q: State, c: u32, who: Ident, row: nat)
    ensures RemoveOp(q.(counter := c), who, row, false) == RemoveOp(q, who, row, false).(counter := c)
  {}

  lemma AddCounterApart(q: State, c: u32, crdt: Crdt, row: nat)
    requires Sound(q.doc)
    ensures NetLand(q.(counter := c), crdt, row) ==
      NetLand(q, crdt, row).(counter := NetLand(q.(counter := c), crdt, row).counter)
  {
    if crdt.who != ROOT && Lands(q.doc.chars, crdt) {
      assert Shown(Land(q.(counter := c), crdt).doc, crdt) == Shown(Land(q, crdt).doc, crdt);
    }
  }

  /** The counter decides nothing. */
  lemma {:induction false} CounterApart(q: State, c: u32, ops: seq<NetOp>)
    requires Sound(q.doc)
    ensures Items(q.(counter := c), ops) == Items(q, ops).(counter := Items(q.(counter := c), ops).counter)
    decreases |ops|
  {
    if ops != [] {
      ItemCounterApart(q, c, ops[0]);
      CounterApart(NetItem(q, ops[0]), NetItem(q.(counter := c), ops[0]).counter, ops[1..]);
    }
  }

  /** The highest id does not depend on who came first. */
  lemma HighestEitherWay(c: u32, ops: seq<NetOp>, op: NetOp, p: u32, p': u32, h: u32, s: u32, s': u32)
    requires Highest(c, ops, p) && Highest(p, [op], p') && Highest(p', ops, h)
    requires Highest(c, [op], s) && Highest(s, ops, s')
    ensures h == s'
  {
    assert op in [op];
  }

  // ----- The theorem -----

  lemma LandsOnParked(q: State, crdt: Crdt, row: nat, ops: seq<NetOp>, parked: State)
    requires Sound(q.doc) && q.net.work == [] && crdt.who != ROOT && Lands(q.doc.chars, crdt) && ops != []
    requires crdt.who !in q.net.backlog && Parked(q, crdt.who, ops, parked)
    ensures var q1, q2 := NetLand(q, crdt, row), NetLand(parked, crdt, row);
      q1.net == q.net && q2 == WithWork(q1, ops).(counter := q2.counter) &&
      Deliver(parked, NetAdd(crdt, row)) == DrainNet(q2)
  {
    var k := crdt.who;
    assert q.net.backlog - {k} == q.net.backlog && q.net.work + [] == q.net.work;
    assert q.net.backlog[k := [] + ops] - {k} == q.net.backlog && [] + ops == ops;
  }

  lemma QuietOnceLanded(q: State, crdt: Crdt, row: nat, ops: seq<NetOp>)
    requires Sound(q.doc) && crdt.who != ROOT && Lands(q.doc.chars, crdt)
    requires forall op :: op in ops ==> WaitsFor(crdt.who, op) && LetsNothingGo(q, op)
    requires NetLand(q, crdt, row).net == q.net
    ensures Quiet(NetLand(q, crdt, row), ops)
  {
    var q1 := NetLand(q, crdt, row);
    forall op | op in ops ensures SparesRoot(op) && Key(op) in q1.doc.chars && LetsNothingGo(q1, op) {
      assert WaitsFor(crdt.who, op) && LetsNothingGo(q, op);
    }
  }

  /** Operations that come before the identity they wait for have, once it arrives, exactly the effect
      that they would have had right behind it, in the order in which they came: on the document, on
      the callbacks, on the counter, line breaks included. */
  lemma EarlyIsInOrder(q: State, crdt: Crdt, row: nat, ops: seq<NetOp>)
    requires Sound(q.doc) && q.net.work == [] && crdt.who != ROOT && Lands(q.doc.chars, crdt)
    requires crdt.who !in q.net.backlog
    requires forall op :: op in ops ==> WaitsFor(crdt.who, op) && LetsNothingGo(q, op)
    ensures DeliverAll(q, ops + [NetAdd(crdt, row)]) == DeliverAll(q, [NetAdd(crdt, row)] + ops)
  {
    var add := NetAdd(crdt, row);
    if ops == [] {
      assert ops + [add] == [add] + ops;
    } else {
      var parked := DeliverAll(q, ops);
      WaitsInOrder(q, crdt.who, ops);
      LandsOnParked(q, crdt, row, ops, parked);
      DeliverConcat(q, ops, [add]);
      assert [add][1..] == [];
      ReplaysInOrder(q, crdt, row, ops, parked);
      assert ([add] + ops)[1..] == ops && q.net.backlog - {crdt.who} == q.net.backlog;
    }
  }

  lemma ReplaysInOrder(q: State, crdt: Crdt, row: nat, ops: seq<NetOp>, parked: State)
    requires Sound(q.doc) && q.net.work == [] && crdt.who != ROOT && Lands(q.doc.chars, crdt) && ops != []
    requires crdt.who !in q.net.backlog && Parked(q, crdt.who, ops, parked)
    requires forall op :: op in ops ==> WaitsFor(crdt.who, op) && LetsNothingGo(q, op)
    ensures DrainNet(NetLand(parked, crdt, row)) == DeliverAll(NetLand(q, crdt, row), ops)
  {
    var q1, q2 := NetLand(q, crdt, row), NetLand(parked, crdt, row);
    LandsOnParked(q, crdt, row, ops, parked);
    QuietOnceLanded(q, crdt, row, ops);
    GenerationByGeneration(q2);
    assert WithWork(q2, []) == q1.(counter := q2.counter);
    QuietItems(q1, ops);
    CounterApart(q1, q2.counter, ops);
    var end := Items(q1.(counter := q2.counter), ops);
    assert DrainNet(end) == end;
    ItemsCounter(q1, ops);
    ItemsCounter(q1.(counter := q2.counter), ops);
    ItemCounter(q, NetAdd(crdt, row));
    ItemCounter(parked, NetAdd(crdt, row));
    HighestEitherWay(q.counter, ops, NetAdd(crdt, row), parked.counter, q2.counter, end.counter, q1.counter,
      Items(q1, ops).counter);
  }
}
