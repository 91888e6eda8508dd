/** A remove whose target has not arrived: it waits with the network operations, whoever asked for it.
    A remote add of the target gives it effect; a local one does not. */
module MissedRemove {
  import opened Types
  import opened Document
  import opened Queue
  import opened QueueSafety
  import opened Delivery
  import opened Broadcast

  /** Local or remote, it changes nothing but that it waits, last, for its target; no callback fires. */
  lemma MissedRemoveWaits(q: State, who: Ident, row: nat, local: bool)
    requires Sound(q.doc) && who != ROOT && who !in q.doc.chars
    ensures var q' := Handle(q, if local then LocalDelete(who, row) else RemoteDelete(who, row));
      Kept(q', NetRemove(who, row)) &&
      Waiting(q'.net.backlog, who) == Waiting(q.net.backlog, who) + [NetRemove(who, row)] &&
      q' == q.(net := q.net.(backlog := q.net.backlog[who := Waiting(q'.net.backlog, who)]))
  {}

  // ----- The target arrives from a peer -----

  /** How often the callbacks have told the editor to drop `who`. */
  function Drops(log: seq<Event>, who: Ident): nat {
    multiset(log)[RemoteRemove(who)]
  }

  /** `who` has arrived and nothing waits for it. Since `log0` its remove has fired exactly if it is a
      tombstone, and nothing has been sent to peers. */
  ghost predicate Arrived(q: State, who: Ident, log0: seq<Event>) {
    && who in q.doc.chars && who !in q.net.backlog && log0 <= q.log
    && Drops(q.log[|log0|..], who) == (if q.doc.chars[who].deleted then 1 else 0)
    && Outgoing(q.log[|log0|..]) == []
  }

  lemma OneMore(log: seq<Event>, log0: seq<Event>, who: Ident, e: Event)
    requires log0 <= log
    ensures log0 <= log + [e]
    ensures Drops((log + [e])[|log0|..], who) == Drops(log[|log0|..], who) + if e == RemoteRemove(who) then 1 else 0
    ensures Outgoing((log + [e])[|log0|..]) == Outgoing(log[|log0|..]) + OutOf(e)
  {
    SuffixGrows(log, log0, e);
    OutgoingGrows(log[|log0|..], e);
  }

  lemma AddStaysArrived(q: State, crdt: Crdt, row: nat, who: Ident, log0: seq<Event>)
    requires Sound(q.doc) && Arrived(q, who, log0)
    ensures Arrived(NetLand(q, crdt, row), who, log0)
  {
    if crdt.who != ROOT && Lands(q.doc.chars, crdt) {
      var shown := Shown(Inserted(q.doc, crdt), crdt);
      NetLandFields(q, crdt, row);
      OneMore(q.log, log0, who, RemoteAdd(shown));
    }
  }

  lemma RemoveStaysArrived(q: State, x: Ident, row: nat, who: Ident, log0: seq<Event>)
    requires Sound(q.doc) && Arrived(q, who, log0)
    ensures Arrived(RemoveOp(q, x, row, false), who, log0)
  {
    if x != ROOT && Live(q.doc.chars, x) { OneMore(q.log, log0, who, RemoteRemove(x)); }
  }

  lemma {:induction false} DrainStaysArrived(q: State, who: Ident, log0: seq<Event>)
    requires Sound(q.doc) && Arrived(q, who, log0)
    ensures Arrived(DrainNet(q), who, log0)
    decreases NetPending(q), |q.net.work|
  {
    if q.net.work != [] {
      var q1 := q.(net := q.net.(work := q.net.work[1..]));
      match q.net.work[0] {
        case NetAdd(crdt, row) => AddStaysArrived(q1, crdt, row, who, log0);
        case NetRemove(x, row) => RemoveStaysArrived(q1, x, row, who, log0);
      }
      DrainStaysArrived(PopNet(q), who, log0);
    }
  }

  lemma {:induction false} DrainKeepsAny(q: State, op: NetOp)
    requires Sound(q.doc) && SparesRoot(op) && Kept(q, op)
    ensures Kept(DrainNet(q), op)
    decreases NetPending(q), |q.net.work|
  {
    if q.net.work != [] {
      var q1, item := q.(net := q.net.(work := q.net.work[1..])), q.net.work[0];
      PopKeeps(q, op);
      if op == item { ItemHeldOrDone(q1, op); }
      else if Done(q1, op) { DoneStays(q1, item, op); }
      else { HeldStays(q1, item, op); }
      DrainKeepsAny(PopNet(q), op);
    }
  }

  lemma LandsArrived(q: State, crdt: Crdt, row: nat)
    requires Sound(q.doc) && crdt.who != ROOT && Lands(q.doc.chars, crdt) && !crdt.relation.deleted
    ensures Arrived(NetLand(q, crdt, row), crdt.who, q.log)
  {
    var shown := Shown(Inserted(q.doc, crdt), crdt);
    NetLandFields(q, crdt, row);
    assert q.log[|q.log|..] == [];
    OneMore(q.log, q.log, crdt.who, RemoteAdd(shown));
  }

  /** An editor deletes what has not arrived. Once it arrives from a peer it is a tombstone, and the
      editor has been told so exactly once; the peers have not been told at all. */
  lemma MissedRemoveTakesEffect(q: State, crdt: Crdt, row: nat, row': nat)
    requires Sound(q.doc) && q.net.work == [] && crdt.who != ROOT && Lands(q.doc.chars, crdt)
    requires !crdt.relation.deleted
    ensures var q' := AddNetwork(Handle(q, LocalDelete(crdt.who, row')), crdt, row);
      crdt.who in q'.doc.chars && q'.doc.chars[crdt.who].deleted && q.log <= q'.log &&
      Drops(q'.log[|q.log|..], crdt.who) == 1 && Outgoing(q'.log[|q.log|..]) == []
  {
    var op := NetRemove(crdt.who, row');
    var q1 := Handle(q, LocalDelete(crdt.who, row'));
    MissedRemoveWaits(q, crdt.who, row', true);
    var q2 := NetLand(q1, crdt, row);
    assert Arrived(DrainNet(q2), crdt.who, q.log) by {
      LandsArrived(q1, crdt, row);
      DrainStaysArrived(q2, crdt.who, q.log);
    }
    assert Kept(DrainNet(q2), op) by {
      HeldStays(q1, NetAdd(crdt, row), op);
      DrainKeepsAny(q2, op);
    }
    assert crdt.who in q1.net.backlog;
  }

  // ----- The target is the editor's own -----

  /** `who` is shown, while a remove of it waits for it to arrive. */
  ghost predicate Stuck(q: State, who: Ident, row: nat) {
    && Live(q.doc.chars, who) && NetRemove(who, row) in Waiting(q.net.backlog, who)
    && (forall k, op :: k in q.net.backlog && op in q.net.backlog[k] ==> Key(op) == k)
    && forall op :: op in q.net.work ==> !Removes(op, who)
  }

  predicate Removes(op: NetOp, who: Ident) {
    op.NetRemove? && op.who == who
  }

  lemma PushStaysStuck(q: State, who: Ident, row: nat, op: NetOp)
    requires Stuck(q, who, row)
    ensures Stuck(q.(net := q.net.(backlog := Push(q.net.backlog, Key(op), op))), who, row)
  {
    var backlog' := Push(q.net.backlog, Key(op), op);
    forall k, o | k in backlog' && o in backlog'[k] ensures Key(o) == k {
      if o != op { assert k in q.net.backlog && o in q.net.backlog[k]; }
    }
  }

  lemma AddStaysStuck(q: State, crdt: Crdt, row': nat, who: Ident, row: nat)
    requires Sound(q.doc) && Stuck(q, who, row)
    ensures Stuck(NetLand(q, crdt, row'), who, row)
  {
    if crdt.who != ROOT && crdt.relation.parent !in q.doc.chars {
      PushStaysStuck(q, who, row, NetAdd(crdt, row'));
    } else if crdt.who != ROOT && Lands(q.doc.chars, crdt) {
      NetLandFields(q, crdt, row');
      ReleaseSpares(q, crdt.who, who, row);
    }
  }

  lemma ReleaseSpares(q: State, x: Ident, who: Ident, row: nat)
    requires Stuck(q, who, row) && x != who
    ensures forall op :: op in q.net.work + Waiting(q.net.backlog, x) ==> !Removes(op, who)
    ensures forall k, op :: k in q.net.backlog - {x} && op in (q.net.backlog - {x})[k] ==> Key(op) == k
    ensures Waiting(q.net.backlog - {x}, who) == Waiting(q.net.backlog, who)
  {
    forall op | op in q.net.work + Waiting(q.net.backlog, x) ensures !Removes(op, who) {
      if op !in q.net.work { assert Key(op) == x; }
    }
  }

  lemma RemoveStaysStuck(q: State, x: Ident, row': nat, local: bool, who: Ident, row: nat)
    requires Sound(q.doc) && Stuck(q, who, row) && x != who
    ensures Stuck(RemoveOp(q, x, row', local), who, row)
  {
    if x != ROOT && x !in q.doc.chars { PushStaysStuck(q, who, row, NetRemove(x, row')); }
  }

  lemma {:induction false} DrainStaysStuck(q: State, who: Ident, row: nat)
    requires Sound(q.doc) && Stuck(q, who, row)
    ensures Stuck(DrainNet(q), who, row)
    decreases NetPending(q), |q.net.work|
  {
    if q.net.work != [] {
      var q1, item := q.(net := q.net.(work := q.net.work[1..])), q.net.work[0];
      assert item in q.net.work && forall op :: op in q1.net.work ==> op in q.net.work;
      match item {
        case NetAdd(crdt, row') => AddStaysStuck(q1, crdt, row', who, row);
        case NetRemove(x, row') => RemoveStaysStuck(q1, x, row', false, who, row);
      }
      DrainStaysStuck(PopNet(q), who, row);
    }
  }

  /** An editor insert neither uses nor changes what waits on the network side, and buries nothing. */
  lemma IdeLandLeavesNet(q: State, op: IdeAdd)
    requires Sound(q.doc)
    ensures IdeLand(q, op).net == q.net && StillThere(q.doc.chars, IdeLand(q, op).doc.chars)
  {
    var parent := Resolve(q, op.parent);
    if parent.Some? && Lands(q.doc.chars, IdeCrdt(q, op, parent.value)) {
      LandLeavesNet(q, IdeCrdt(q, op, parent.value));
    }
  }

  lemma LandLeavesNet(q: State, crdt: Crdt)
    requires Sound(q.doc) && Lands(q.doc.chars, crdt) && !crdt.relation.deleted
    ensures var q' := Queue.Broadcast(ReleaseIde(Land(q, crdt), crdt.who), crdt);
      q'.net == q.net && StillThere(q.doc.chars, q'.doc.chars)
  {}

  ghost predicate StillThere(chars: Chars, chars': Chars) {
    && (forall x :: x in chars ==> x in chars' && chars'[x] == chars[x])
    && forall x :: x in chars' && x !in chars ==> !chars'[x].deleted
  }

  lemma {:induction false} DrainIdeLeavesNet(q: State)
    requires Sound(q.doc)
    ensures DrainIde(q).net == q.net && StillThere(q.doc.chars, DrainIde(q).doc.chars)
    decreases IdePending(q), |q.ide.work|
  {
    if q.ide.work != [] {
      IdeLandLeavesNet(q.(ide := q.ide.(work := q.ide.work[1..])), q.ide.work[0]);
      DrainIdeLeavesNet(PopIde(q));
    }
  }

  lemma IdeFirstLeavesNet(q: State, op: IdeAdd)
    requires Sound(q.doc)
    ensures IdeFirst(q, op).net == q.net && StillThere(q.doc.chars, IdeFirst(q, op).doc.chars)
  {
    var parent := Resolve(q, op.parent);
    if parent.Some? && Lands(q.doc.chars, IdeCrdt(q, op, parent.value)) {
      DrainIdeLeavesNet(ReleaseIde(Land(q, IdeCrdt(q, op, parent.value)), Given(q, op)));
    }
  }

  lemma AddIdeLeavesNet(q: State, op: IdeAdd)
    requires Sound(q.doc) && q.counter < MAX_U32
    ensures AddIde(q, op).net == q.net && StillThere(q.doc.chars, AddIde(q, op).doc.chars)
  {
    IdeFirstLeavesNet(Receive(q, op), op);
    DrainIdeLeavesNet(IdeFirst(Receive(q, op), op));
  }

  /** An editor deletes a character of its own that has not landed yet, because its parent is missing.
      Whatever editor insert makes it land, it is shown, and the remove waits on. */
  lemma OwnRemoveIsStuck(q: State, op: IdeAdd, who: Ident, row: nat)
    requires Sound(q.doc) && q.counter < MAX_U32 && q.net.backlog == map[] && q.net.work == []
    requires who != ROOT && who !in q.doc.chars && who in AddIde(Handle(q, LocalDelete(who, row)), op).doc.chars
    ensures Stuck(AddIde(Handle(q, LocalDelete(who, row)), op), who, row)
  {
    MissedRemoveWaits(q, who, row, true);
    AddIdeLeavesNet(Handle(q, LocalDelete(who, row)), op);
  }

  predicate Deletes(r: Request, who: Ident) {
    match r
    case LocalDelete(x, _) => x == who
    case RemoteDelete(x, _) => x == who
    case _ => false
  }

  lemma HandleStaysStuck(q: State, r: Request, who: Ident, row: nat)
    requires Sound(q.doc) && !Exhausted(q, r) && Stuck(q, who, row) && !Deletes(r, who)
    ensures Stuck(Handle(q, r), who, row)
  {
    match r
    case Remote(crdt, row') =>
      AddStaysStuck(q, crdt, row', who, row);
      DrainStaysStuck(NetLand(q, crdt, row'), who, row);
    case RemoteDelete(x, row') => RemoveStaysStuck(q, x, row', false, who, row);
    case Local(op) => AddIdeLeavesNet(q, op);
    case LocalDelete(x, row') => RemoveStaysStuck(q, x, row', true, who, row);
  }

  /** And it waits for good: in no run does such a character go until someone removes it anew. */
  lemma {:induction false} StuckForGood(q: State, requests: seq<Request>, who: Ident, row: nat)
    requires Sound(q.doc) && Stuck(q, who, row) && forall r :: r in requests ==> !Deletes(r, who)
    ensures Stuck(Serve(q, requests), who, row)
    decreases |requests|
  {
    if requests != [] && !Exhausted(q, requests[0]) {
      HandleStaysStuck(q, requests[0], who, row);
      StuckForGood(Handle(q, requests[0]), requests[1..], who, row);
    }
  }
}
