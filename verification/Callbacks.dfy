/** The states that the queue passes through, callback by callback: at each of them, in the middle of
    a drain too, a list that follows the callbacks is the server's list. */
module Callbacks {
  import opened Types
  import opened Document
  import opened Queue
  import opened QueueSafety

  // ----- The states of a request -----

  ghost function DrainNetStates(q: State): (states: seq<State>)
    requires Sound(q.doc)
    ensures states != [] && states[0] == q
    decreases NetPending(q), |q.net.work|
  {
    if q.net.work == [] then [q] else [q] + DrainNetStates(PopNet(q))
  }

  ghost function DrainIdeStates(q: State): (states: seq<State>)
    requires Sound(q.doc)
    ensures states != [] && states[0] == q
    decreases IdePending(q), |q.ide.work|
  {
    if q.ide.work == [] then [q] else [q] + DrainIdeStates(PopIde(q))
  }

  /** Before the request, after each step of it, and after each operation that a drain replays. */
  ghost function HandleStates(q: State, r: Request): (states: seq<State>)
    requires Sound(q.doc) && !Exhausted(q, r)
    ensures states != [] && states[0] == q
  {
    match r
    case Remote(crdt, row) =>
      var q1 := NetLand(q, crdt, row);
      if crdt.who != ROOT && Lands(q.doc.chars, crdt) && crdt.who in q.net.backlog
      then [q] + DrainNetStates(q1) else [q, q1]
    case RemoteDelete(who, row) => [q, RemoveOp(q, who, row, false)]
    case Local(op) => [q] + ([Receive(q, op)] + DrainIdeStates(IdeFirst(Receive(q, op), op)))
    case LocalDelete(who, row) => [q, RemoveOp(q, who, row, true)]
  }

  ghost function ServeStates(q: State, requests: seq<Request>): (states: seq<State>)
    requires Sound(q.doc)
    ensures states != [] && states[0] == q
    decreases |requests|
  {
    if requests == [] || Exhausted(q, requests[0]) then [q]
    else HandleStates(q, requests[0]) + ServeStates(Handle(q, requests[0]), requests[1..])
  }

  function Last(states: seq<State>): State
    requires states != []
  {
    states[|states| - 1]
  }

  lemma LastJoin(a: seq<State>, b: seq<State>)
    requires b != []
    ensures Last(a + b) == Last(b)
  {}

  lemma {:induction false} DrainNetEnds(q: State)
    requires Sound(q.doc)
    ensures Last(DrainNetStates(q)) == DrainNet(q)
    decreases NetPending(q), |q.net.work|
  {
    if q.net.work != [] {
      DrainNetEnds(PopNet(q));
      LastJoin([q], DrainNetStates(PopNet(q)));
    }
  }

  lemma {:induction false} DrainIdeEnds(q: State)
    requires Sound(q.doc)
    ensures Last(DrainIdeStates(q)) == DrainIde(q)
    decreases IdePending(q), |q.ide.work|
  {
    if q.ide.work != [] {
      DrainIdeEnds(PopIde(q));
      LastJoin([q], DrainIdeStates(PopIde(q)));
    }
  }

  lemma HandleEnds(q: State, r: Request)
    requires Sound(q.doc) && !Exhausted(q, r)
    ensures Last(HandleStates(q, r)) == Handle(q, r)
  {
    match r
    case Remote(crdt, row) =>
      DrainNetEnds(NetLand(q, crdt, row));
      LastJoin([q], DrainNetStates(NetLand(q, crdt, row)));
    case RemoteDelete(who, row) =>
    case Local(op) => LocalEnds(q, op);
    case LocalDelete(who, row) =>
  }

  lemma LocalEnds(q: State, op: IdeAdd)
    requires Sound(q.doc) && q.counter < MAX_U32
    ensures Last(HandleStates(q, Local(op))) == AddIde(q, op)
  {
    var q1 := Receive(q, op);
    DrainIdeEnds(IdeFirst(q1, op));
    LastJoin([q1], DrainIdeStates(IdeFirst(q1, op)));
    LastJoin([q], [q1] + DrainIdeStates(IdeFirst(q1, op)));
  }

  lemma {:induction false} ServeEnds(q: State, requests: seq<Request>)
    requires Sound(q.doc)
    ensures Last(ServeStates(q, requests)) == Serve(q, requests)
    decreases |requests|
  {
    if requests != [] && !Exhausted(q, requests[0]) {
      ServeEnds(Handle(q, requests[0]), requests[1..]);
      LastJoin(HandleStates(q, requests[0]), ServeStates(Handle(q, requests[0]), requests[1..]));
    }
  }

  // ----- One callback at a time -----

  /** At most one callback has fired. */
  ghost predicate OneMore(log: seq<Event>, log': seq<Event>) {
    log' == log || (log' != [] && log'[..|log'| - 1] == log)
  }

  /** Each state shows what the callbacks so far have built, and no step fires more than one. */
  ghost predicate Trail(start: seq<Ident>, states: seq<State>) {
    && (forall i :: 0 <= i < |states| ==> InSync(start, states[i]))
    && forall i :: 0 < i < |states| ==> OneMore(states[i - 1].log, states[i].log)
  }

  lemma TrailJoin(start: seq<Ident>, states: seq<State>, more: seq<State>)
    requires Trail(start, states) && Trail(start, more) && states != [] && more != []
    requires OneMore(Last(states).log, more[0].log)
    ensures Trail(start, states + more)
  {
    var all := states + more;
    forall i | 0 < i < |all| ensures OneMore(all[i - 1].log, all[i].log) {
      if i == |states| { assert all[i - 1] == states[i - 1] && all[i] == more[0]; }
    }
  }

  lemma LogOf(log: seq<Event>, e: Event)
    ensures OneMore(log, log + [e])
  {
    assert (log + [e])[..|log|] == log;
  }

  /** One step: in step before, in step after, at most one callback. */
  ghost predicate Advances(start: seq<Ident>, q: State, q': State) {
    InSync(start, q') && OneMore(q.log, q'.log)
  }

  lemma TrailCons(start: seq<Ident>, q: State, states: seq<State>)
    requires InSync(start, q) && Trail(start, states) && states != [] && Advances(start, q, states[0])
    ensures Trail(start, [q] + states)
  {
    TrailJoin(start, [q], states);
  }

  lemma NetLandAdvances(start: seq<Ident>, q: State, crdt: Crdt, row: nat)
    requires Sound(q.doc) && InSync(start, q)
    ensures Advances(start, q, NetLand(q, crdt, row))
  {
    NetLandInSync(start, q, crdt, row);
    if crdt.who != ROOT && Lands(q.doc.chars, crdt) { LogOf(q.log, RemoteAdd(Shown(Inserted(q.doc, crdt), crdt))); }
  }

  lemma RemoveAdvances(start: seq<Ident>, q: State, who: Ident, row: nat, local: bool)
    requires InSync(start, q)
    ensures Advances(start, q, RemoveOp(q, who, row, local))
  {
    RemoveInSync(start, q, who, row, local);
    LogOf(q.log, if local then LocalRemove(who) else RemoteRemove(who));
  }

  lemma NetItemAdvances(start: seq<Ident>, q: State, item: NetOp)
    requires Sound(q.doc) && InSync(start, q)
    ensures Advances(start, q, NetItem(q, item))
  {
    match item
    case NetAdd(crdt, row) => NetLandAdvances(start, q, crdt, row);
    case NetRemove(who, row) => RemoveAdvances(start, q, who, row, false);
  }

  lemma IdeLandAdvances(start: seq<Ident>, q: State, op: IdeAdd)
    requires Sound(q.doc) && InSync(start, q)
    ensures Advances(start, q, IdeLand(q, op))
  {
    IdeLandInSync(start, q, op);
    var parent := Resolve(q, op.parent);
    if parent.Some? {
      var crdt := IdeCrdt(q, op, parent.value);
      if Lands(q.doc.chars, crdt) { LogOf(q.log, LocalAdd(crdt, Shown(Inserted(q.doc, crdt), crdt))); }
    }
  }

  lemma PopNetAdvances(start: seq<Ident>, q: State)
    requires Sound(q.doc) && q.net.work != [] && InSync(start, q)
    ensures Advances(start, q, PopNet(q))
  {
    NetItemAdvances(start, q.(net := q.net.(work := q.net.work[1..])), q.net.work[0]);
  }

  lemma PopIdeAdvances(start: seq<Ident>, q: State)
    requires Sound(q.doc) && q.ide.work != [] && InSync(start, q)
    ensures Advances(start, q, PopIde(q))
  {
    IdeLandAdvances(start, q.(ide := q.ide.(work := q.ide.work[1..])), q.ide.work[0]);
  }

  lemma {:induction false} DrainNetTrail(start: seq<Ident>, q: State)
    requires Sound(q.doc) && InSync(start, q)
    ensures Trail(start, DrainNetStates(q))
    decreases NetPending(q), |q.net.work|
  {
    if q.net.work != [] {
      PopNetAdvances(start, q);
      DrainNetTrail(start, PopNet(q));
      TrailCons(start, q, DrainNetStates(PopNet(q)));
    }
  }

  lemma {:induction false} DrainIdeTrail(start: seq<Ident>, q: State)
    requires Sound(q.doc) && InSync(start, q)
    ensures Trail(start, DrainIdeStates(q))
    decreases IdePending(q), |q.ide.work|
  {
    if q.ide.work != [] {
      PopIdeAdvances(start, q);
      DrainIdeTrail(start, PopIde(q));
      TrailCons(start, q, DrainIdeStates(PopIde(q)));
    }
  }

  // ----- Requests -----

  lemma RemoteTrail(start: seq<Ident>, q: State, crdt: Crdt, row: nat)
    requires Sound(q.doc) && InSync(start, q)
    ensures Trail(start, HandleStates(q, Remote(crdt, row)))
  {
    var q1 := NetLand(q, crdt, row);
    NetLandAdvances(start, q, crdt, row);
    DrainNetTrail(start, q1);
    TrailCons(start, q, DrainNetStates(q1));
  }

  lemma RemoveTrail(start: seq<Ident>, q: State, who: Ident, row: nat, local: bool)
    requires InSync(start, q)
    ensures Trail(start, [q, RemoveOp(q, who, row, local)])
  {
    RemoveAdvances(start, q, who, row, local);
  }

  lemma ReceiveAdvances(start: seq<Ident>, q: State, op: IdeAdd)
    requires q.counter < MAX_U32 && InSync(start, q)
    ensures Advances(start, q, Receive(q, op))
  {
    var e := Confirmed(op.tag, Ident(q.counter + 1, q.ids.peer));
    ScreenGrows(start, q.log, e);
    LogOf(q.log, e);
  }

  /** Nothing can wait for a fresh identity, so the newcomer is broadcast before anything is replayed. */
  lemma FirstAdvances(start: seq<Ident>, q: State, op: IdeAdd)
    requires Sound(q.doc) && q.counter < MAX_U32 && Within(q) && InSync(start, Receive(q, op))
    ensures Advances(start, Receive(q, op), IdeFirst(Receive(q, op), op))
  {
    ReceiveWithin(q, op);
    IdeFirstIsLand(Receive(q, op), op);
    IdeLandAdvances(start, Receive(q, op), op);
  }

  lemma LocalTrail(start: seq<Ident>, q: State, op: IdeAdd)
    requires Sound(q.doc) && q.counter < MAX_U32 && Within(q) && InSync(start, q)
    ensures Trail(start, HandleStates(q, Local(op)))
  {
    var q1 := Receive(q, op);
    ReceiveAdvances(start, q, op);
    FirstAdvances(start, q, op);
    var states := DrainIdeStates(IdeFirst(q1, op));
    DrainIdeTrail(start, IdeFirst(q1, op));
    TrailCons(start, q1, states);
    TrailCons(start, q, [q1] + states);
  }

  lemma HandleTrail(start: seq<Ident>, q: State, r: Request)
    requires Sound(q.doc) && Within(q) && InSync(start, q) && Sensible(q, r)
    ensures Trail(start, HandleStates(q, r))
  {
    match r
    case Remote(crdt, row) => RemoteTrail(start, q, crdt, row);
    case RemoteDelete(who, row) => RemoveTrail(start, q, who, row, false);
    case Local(op) => LocalTrail(start, q, op);
    case LocalDelete(who, row) => RemoveTrail(start, q, who, row, true);
  }

  /** Over every run, at every state in between: what the callbacks so far have built is the
      document, and from one state to the next at most one callback fires. */
  lemma {:induction false} ServeTrail(start: seq<Ident>, q: State, requests: seq<Request>)
    requires Sound(q.doc) && Within(q) && InSync(start, q) && AllSensible(q, requests)
    ensures Trail(start, ServeStates(q, requests))
    decreases |requests|
  {
    if requests != [] {
      var r := requests[0];
      HandleTrail(start, q, r);
      HandleWithin(q, r);
      HandleInSync(start, q, r);
      HandleEnds(q, r);
      ServeTrail(start, Handle(q, r), requests[1..]);
      TrailJoin(start, HandleStates(q, r), ServeStates(Handle(q, r), requests[1..]));
    }
  }

  lemma {:induction false} TrailCovers(start: seq<Ident>, states: seq<State>, k: nat) returns (i: nat)
    requires Trail(start, states) && states != [] && |states[0].log| <= k <= |Last(states).log|
    ensures i < |states| && states[i].log == Last(states).log[..k]
    decreases |states|
  {
    var n := |states| - 1;
    if |states[n].log| == k {
      i := n;
    } else {
      assert OneMore(states[n - 1].log, states[n].log);
      i := TrailCovers(start, states[..n], k);
    }
  }

  /** After each callback of every run, the ones inside drains included, there is a state at which
      exactly the callbacks up to that one have fired, and the list they have built is the server's. */
  lemma EachCallbackInSync(start: seq<Ident>, q: State, requests: seq<Request>, k: nat) returns (s: State)
    requires Sound(q.doc) && Within(q) && InSync(start, q) && AllSensible(q, requests)
    requires |q.log| <= k <= |Serve(q, requests).log|
    ensures s in ServeStates(q, requests) && s.log == Serve(q, requests).log[..k]
    ensures s.anchored ==> WellFormed(s.doc) && s.doc.flat == Screen(start, Serve(q, requests).log[..k])
  {
    ServeTrail(start, q, requests);
    ServeEnds(q, requests);
    var i := TrailCovers(start, ServeStates(q, requests), k);
    s := ServeStates(q, requests)[i];
    assert InSync(start, s);
  }
}
