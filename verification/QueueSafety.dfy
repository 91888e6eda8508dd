/** What every queue operation keeps: the document stays well-formed, a list that only follows the
    callbacks stays equal to it, and no recorded id exceeds the counter. */
module QueueSafety {
  import opened Types
  import opened Lists
  import opened Document
  import opened Shape
  import opened Queue

  // ----- A screen that follows the callbacks -----

  function InsertAfter(s: seq<Ident>, pred: Ident, who: Ident): seq<Ident> {
    if pred in s then InsertAt(s, IndexOf(s, pred) + 1, who) else s
  }

  function Act(s: seq<Ident>, e: Event): seq<Ident> {
    match e
    case Confirmed(_, _) => s
    case LocalAdd(_, shown) => InsertAfter(s, shown.relation.parent, shown.who)
    case RemoteAdd(shown) => InsertAfter(s, shown.relation.parent, shown.who)
    case LocalRemove(who) => Erase(s, who)
    case RemoteRemove(who) => Erase(s, who)
  }

  /** What an editor shows that starts from `start` and only inserts right behind the named
      identity, or deletes the named identity, on each callback. */
  function Screen(start: seq<Ident>, log: seq<Event>): seq<Ident> {
    if log == [] then start else Act(Screen(start, log[..|log| - 1]), log[|log| - 1])
  }

  lemma ScreenGrows(start: seq<Ident>, log: seq<Event>, e: Event)
    ensures Screen(start, log + [e]) == Act(Screen(start, log), e)
  {
    assert (log + [e])[..|log|] == log;
  }

  /** As long as every add was anchored, the document is well-formed and the screen shows it. */
  ghost predicate InSync(start: seq<Ident>, q: State) {
    q.anchored ==> WellFormed(q.doc) && q.doc.flat == Screen(start, q.log)
  }

  lemma InsertAfterAt(s: seq<Ident>, i: nat, x: Ident)
    requires Distinct(s) && 0 < i <= |s|
    ensures InsertAfter(s, s[i - 1], x) == InsertAt(s, i, x)
  {
    IndexUnique(s, i - 1);
  }

  lemma ShownAt(d: Doc, crdt: Crdt, i: nat)
    requires crdt.who in d.flat && i == IndexOf(d.flat, crdt.who) && i > 0
    ensures Shown(d, crdt).who == crdt.who && Shown(d, crdt).relation.parent == d.flat[i - 1]
  {}

  lemma ShownActs(d: Doc, crdt: Crdt)
    requires WellFormed(d) && Lands(d.chars, crdt) && Anchored(d.chars, crdt)
    ensures var shown := Shown(Inserted(d, crdt), crdt);
      shown.who == crdt.who && InsertAfter(d.flat, shown.relation.parent, crdt.who) == Inserted(d, crdt).flat
  {
    var s := Slot(d, crdt);
    assert Inserted(d, crdt).flat == InsertAt(d.flat, s, crdt.who) by { AnchoredAddKeepsWellFormed(d, crdt); }
    assert s > 0 by { AnchoredSlot(d, crdt); }
    InsertedBehind(d.flat, s, crdt.who);
    ShownAt(Inserted(d, crdt), crdt, s);
    InsertAfterAt(d.flat, s, crdt.who);
  }

  lemma LandInSync(start: seq<Ident>, q: State, crdt: Crdt, e: Event)
    requires Sound(q.doc) && Lands(q.doc.chars, crdt) && InSync(start, q)
    requires e == LocalAdd(crdt, Shown(Inserted(q.doc, crdt), crdt)) ||
      e == RemoteAdd(Shown(Inserted(q.doc, crdt), crdt))
    ensures var q' := Land(q, crdt); InSync(start, q'.(log := q.log + [e]))
  {
    if q.anchored && Anchored(q.doc.chars, crdt) {
      ScreenGrows(start, q.log, e);
      ShownActs(q.doc, crdt);
      AnchoredAddKeepsWellFormed(q.doc, crdt);
    }
  }

  lemma RemoveInSync(start: seq<Ident>, q: State, who: Ident, row: nat, local: bool)
    requires InSync(start, q)
    ensures InSync(start, RemoveOp(q, who, row, local))
  {
    if who != ROOT && Live(q.doc.chars, who) {
      RemoveShows(start, q, who, if local then LocalRemove(who) else RemoteRemove(who));
    }
  }

  lemma RemoveShows(start: seq<Ident>, q: State, who: Ident, e: Event)
    requires InSync(start, q) && who != ROOT && Live(q.doc.chars, who)
    requires (e == LocalRemove(who) || e == RemoteRemove(who))
    ensures InSync(start, q.(doc := Remove(q.doc, who), log := q.log + [e]))
  {
    if q.anchored {
      RemoveKeepsWellFormed(q.doc, who);
      ScreenGrows(start, q.log, e);
    }
  }

  lemma NetLandInSync(start: seq<Ident>, q: State, crdt: Crdt, row: nat)
    requires Sound(q.doc) && InSync(start, q)
    ensures InSync(start, NetLand(q, crdt, row))
  {
    if crdt.who != ROOT && Lands(q.doc.chars, crdt) {
      LandInSync(start, Ratchet(q, crdt.who.id), crdt, RemoteAdd(Shown(Inserted(q.doc, crdt), crdt)));
    }
  }

  lemma {:induction false} DrainNetInSync(start: seq<Ident>, q: State)
    requires Sound(q.doc) && InSync(start, q)
    ensures InSync(start, DrainNet(q))
    decreases NetPending(q), |q.net.work|
  {
    if q.net.work != [] {
      NetItemInSync(start, q.(net := q.net.(work := q.net.work[1..])), q.net.work[0]);
      DrainNetInSync(start, PopNet(q));
    }
  }

  lemma NetItemInSync(start: seq<Ident>, q: State, item: NetOp)
    requires Sound(q.doc) && InSync(start, q)
    ensures InSync(start, NetItem(q, item))
  {
    match item
    case NetAdd(crdt, row) => NetLandInSync(start, q, crdt, row);
    case NetRemove(who, row) => RemoveInSync(start, q, who, row, false);
  }

  lemma IdeLandInSync(start: seq<Ident>, q: State, op: IdeAdd)
    requires Sound(q.doc) && InSync(start, q)
    ensures InSync(start, IdeLand(q, op))
  {
    var parent := Resolve(q, op.parent);
    if parent.Some? {
      var crdt := IdeCrdt(q, op, parent.value);
      if Lands(q.doc.chars, crdt) { LandInSync(start, q, crdt, LocalAdd(crdt, Shown(Inserted(q.doc, crdt), crdt))); }
    }
  }

  lemma {:induction false} DrainIdeInSync(start: seq<Ident>, q: State)
    requires Sound(q.doc) && InSync(start, q)
    ensures InSync(start, DrainIde(q))
    decreases IdePending(q), |q.ide.work|
  {
    if q.ide.work != [] {
      IdeLandInSync(start, q.(ide := q.ide.(work := q.ide.work[1..])), q.ide.work[0]);
      DrainIdeInSync(start, PopIde(q));
    }
  }

  // ----- Whole runs -----

  /** What the queue is asked to do. */
  datatype Request =
    | Remote(crdt: Crdt, row: nat)
    | RemoteDelete(who: Ident, row: nat)
    | Local(op: IdeAdd)
    | LocalDelete(who: Ident, row: nat)

  /** No id is left: the counter would overflow. */
  predicate Exhausted(q: State, r: Request) {
    r.Local? && q.counter >= MAX_U32
  }

  ghost function Handle(q: State, r: Request): (q': State)
    requires Sound(q.doc) && !Exhausted(q, r)
    ensures Sound(q'.doc)
  {
    match r
    case Remote(crdt, row) => AddNetwork(q, crdt, row)
    case RemoteDelete(who, row) => RemoveKeepsSound(q.doc, who); RemoveOp(q, who, row, false)
    case Local(op) => AddIde(q, op)
    case LocalDelete(who, row) => RemoveKeepsSound(q.doc, who); RemoveOp(q, who, row, true)
  }

  // ----- The counter ratchet -----

  ghost predicate All<K(!new), V(!new)>(m: map<K, seq<V>>, p: V -> bool) {
    forall k, v :: k in m && v in m[k] ==> p(v)
  }

  lemma AllPush<K(!new), V(!new)>(m: map<K, seq<V>>, k: K, v: V, p: V -> bool)
    requires All(m, p) && p(v)
    ensures All(Push(m, k, v), p)
  {
    forall l, w | l in Push(m, k, v) && w in Push(m, k, v)[l] ensures p(w) {
      if l == k && w != v { assert k in m && w in m[k]; }
    }
  }

  function NetWithin(c: nat): NetOp -> bool {
    (op: NetOp) => op.NetAdd? ==> op.crdt.who.id <= c
  }

  /** Editors name only identities that have been handed out. */
  function IdeWithin(c: nat): IdeAdd -> bool {
    (op: IdeAdd) => op.parent.ById? ==> op.parent.who.id <= c
  }

  /** No recorded id exceeds the counter. */
  ghost predicate Within(q: State) {
    && (forall x :: x in q.doc.chars ==> x.id <= q.counter)
    && (forall t :: t in q.ids.tags ==> q.ids.tags[t].id <= q.counter)
    && (forall k :: k in q.ide.backlog ==> k.id <= q.counter)
    && All(q.ide.backlog, IdeWithin(q.counter))
    && All(q.ide.tagBacklog, IdeWithin(q.counter))
    && All(q.net.backlog, NetWithin(q.counter))
    && (forall op :: op in q.ide.work ==> IdeWithin(q.counter)(op))
    && (forall op :: op in q.net.work ==> NetWithin(q.counter)(op))
  }

  lemma AllRaise(q: State, c: u32)
    requires Within(q) && q.counter <= c
    ensures Within(q.(counter := c))
  {
    forall k, v | k in q.ide.backlog && v in q.ide.backlog[k] ensures IdeWithin(c)(v) {
      assert IdeWithin(q.counter)(v);
    }
    forall k, v | k in q.ide.tagBacklog && v in q.ide.tagBacklog[k] ensures IdeWithin(c)(v) {
      assert IdeWithin(q.counter)(v);
    }
    forall k, v | k in q.net.backlog && v in q.net.backlog[k] ensures NetWithin(c)(v) {
      assert NetWithin(q.counter)(v);
    }
    forall op | op in q.ide.work ensures IdeWithin(c)(op) { assert IdeWithin(q.counter)(op); }
    forall op | op in q.net.work ensures NetWithin(c)(op) { assert NetWithin(q.counter)(op); }
  }

  lemma NetLandWithin(q: State, crdt: Crdt, row: nat)
    requires Sound(q.doc) && Within(q)
    ensures Within(NetLand(q, crdt, row))
  {
    var q1 := Ratchet(q, crdt.who.id);
    AllRaise(q, q1.counter);
    if crdt.relation.parent !in q.doc.chars {
      AllPush(q.net.backlog, crdt.relation.parent, NetAdd(crdt, row), NetWithin(q1.counter));
    }
  }

  lemma RemoveWithin(q: State, who: Ident, row: nat, local: bool)
    requires Within(q)
    ensures Within(RemoveOp(q, who, row, local))
  {
    AllPush(q.net.backlog, who, NetRemove(who, row), NetWithin(q.counter));
  }

  lemma {:induction false} DrainNetWithin(q: State)
    requires Sound(q.doc) && Within(q)
    ensures Within(DrainNet(q))
    decreases NetPending(q), |q.net.work|
  {
    if q.net.work != [] {
      var item, q1 := q.net.work[0], q.(net := q.net.(work := q.net.work[1..]));
      assert item in q.net.work && forall op :: op in q1.net.work ==> op in q.net.work;
      assert Within(q1);
      match item {
        case NetAdd(crdt, row) => NetLandWithin(q1, crdt, row);
        case NetRemove(who, row) => RemoveWithin(q1, who, row, false);
      }
      DrainNetWithin(PopNet(q));
    }
  }

  lemma IdeLandWithin(q: State, op: IdeAdd)
    requires Sound(q.doc) && Within(q) && IdeWithin(q.counter)(op)
    ensures Within(IdeLand(q, op))
  {
    match Resolve(q, op.parent)
    case None => AllPush(q.ide.tagBacklog, op.parent.tag, op, IdeWithin(q.counter));
    case Some(parent) =>
      var crdt := IdeCrdt(q, op, parent);
      if parent !in q.doc.chars {
        assert parent.id <= q.counter;
        AllPush(q.ide.backlog, parent, op, IdeWithin(q.counter));
      } else if crdt.who !in q.doc.chars {
        IdeLandsWithin(q, crdt);
      }
  }

  lemma IdeLandsWithin(q: State, crdt: Crdt)
    requires Sound(q.doc) && Within(q) && Lands(q.doc.chars, crdt) && crdt.who.id <= q.counter
    ensures Within(Broadcast(ReleaseIde(Land(q, crdt), crdt.who), crdt))
  {
    LandWithin(q, crdt);
    ReleaseWithin(Land(q, crdt), crdt.who);
  }

  lemma LandWithin(q: State, crdt: Crdt)
    requires Sound(q.doc) && Within(q) && Lands(q.doc.chars, crdt) && crdt.who.id <= q.counter
    ensures Within(Land(q, crdt))
  {}

  lemma ReleaseWithin(q: State, who: Ident)
    requires Within(q)
    ensures Within(ReleaseIde(q, who))
  {
    forall op | op in Waiting(q.ide.backlog, who) ensures IdeWithin(q.counter)(op) {
      assert who in q.ide.backlog && op in q.ide.backlog[who];
    }
  }

  lemma {:induction false} DrainIdeWithin(q: State)
    requires Sound(q.doc) && Within(q)
    ensures Within(DrainIde(q))
    decreases IdePending(q), |q.ide.work|
  {
    if q.ide.work != [] {
      var op, q1 := q.ide.work[0], q.(ide := q.ide.(work := q.ide.work[1..]));
      assert op in q.ide.work && forall o :: o in q1.ide.work ==> o in q.ide.work;
      assert Within(q1);
      IdeLandWithin(q1, op);
      DrainIdeWithin(PopIde(q));
    }
  }

  lemma ReceiveWithin(q: State, op: IdeAdd)
    requires Within(q) && q.counter < MAX_U32
    ensures Within(Receive(q, op))
    ensures var who := Ident(q.counter + 1, q.ids.peer);
      who !in q.doc.chars && who !in q.ide.backlog && Given(Receive(q, op), op) == who
  {
    var q1 := q.(counter := q.counter + 1);
    AllRaise(q, q1.counter);
    forall o | o in Waiting(q.ide.tagBacklog, op.tag) ensures IdeWithin(q1.counter)(o) {
      assert op.tag in q1.ide.tagBacklog && o in q1.ide.tagBacklog[op.tag];
    }
  }

  /** A fresh add has nothing waiting for it, so its broadcast is not held back by a drain. */
  lemma IdeFirstIsLand(q: State, op: IdeAdd)
    requires Sound(q.doc) && Given(q, op) !in q.ide.backlog
    ensures IdeFirst(q, op) == IdeLand(q, op)
  {
    var parent := Resolve(q, op.parent);
    if parent.Some? {
      var who := Given(q, op);
      assert q.ide.backlog - {who} == q.ide.backlog && q.ide.work + Waiting(q.ide.backlog, who) == q.ide.work;
    }
  }

  lemma AddIdeWithin(q: State, op: IdeAdd)
    requires Sound(q.doc) && q.counter < MAX_U32 && Within(q) && IdeWithin(q.counter)(op)
    ensures Within(AddIde(q, op))
  {
    var q1 := Receive(q, op);
    ReceiveWithin(q, op);
    assert IdeWithin(q1.counter)(op);
    IdeFirstIsLand(q1, op);
    IdeLandWithin(q1, op);
    DrainIdeWithin(IdeFirst(q1, op));
  }

  lemma AddIdeInSync(start: seq<Ident>, q: State, op: IdeAdd)
    requires Sound(q.doc) && q.counter < MAX_U32 && Within(q) && InSync(start, q)
    ensures InSync(start, AddIde(q, op))
  {
    var q1 := Receive(q, op);
    ReceiveWithin(q, op);
    IdeFirstIsLand(q1, op);
    ScreenGrows(start, q.log, Confirmed(op.tag, Ident(q.counter + 1, q.ids.peer)));
    IdeLandInSync(start, q1, op);
    DrainIdeInSync(start, IdeFirst(q1, op));
  }

  /** An editor names only identities it has been told. */
  ghost predicate Sensible(q: State, r: Request) {
    !Exhausted(q, r) && (r.Local? ==> IdeWithin(q.counter)(r.op))
  }

  ghost function Serve(q: State, requests: seq<Request>): (q': State)
    requires Sound(q.doc)
    ensures Sound(q'.doc)
    decreases |requests|
  {
    if requests == [] then q
    else if Exhausted(q, requests[0]) then q
    else Serve(Handle(q, requests[0]), requests[1..])
  }

  ghost predicate AllSensible(q: State, requests: seq<Request>)
    requires Sound(q.doc)
    decreases |requests|
  {
    requests == [] || (Sensible(q, requests[0]) && AllSensible(Handle(q, requests[0]), requests[1..]))
  }

  /** A run starts with the first request. */
  lemma ServeFirst(q: State, r: Request, rest: seq<Request>)
    requires Sound(q.doc) && !Exhausted(q, r)
    ensures Serve(q, [r] + rest) == Serve(Handle(q, r), rest)
  {
    assert ([r] + rest)[1..] == rest;
  }

  /** Ids do not run out. */
  ghost predicate NoneExhausted(q: State, requests: seq<Request>)
    requires Sound(q.doc)
    decreases |requests|
  {
    requests == [] || (!Exhausted(q, requests[0]) && NoneExhausted(Handle(q, requests[0]), requests[1..]))
  }

  /** A run goes through every request, one after the other. */
  lemma {:induction false} ServesCompose(q: State, a: seq<Request>, b: seq<Request>)
    requires Sound(q.doc) && NoneExhausted(q, a)
    ensures Serve(q, a + b) == Serve(Serve(q, a), b)
    decreases |a|
  {
    if a == [] {
      assert a + b == b;
    } else {
      ServesCompose(Handle(q, a[0]), a[1..], b);
      ServesStep(q, a[0], a[1..], b, Handle(q, a[0]));
      assert a == [a[0]] + a[1..];
    }
  }

  lemma ServesStep(q: State, r: Request, rest: seq<Request>, b: seq<Request>, q1: State)
    requires Sound(q.doc) && Sound(q1.doc) && !Exhausted(q, r) && q1 == Handle(q, r)
    requires Serve(q1, rest + b) == Serve(Serve(q1, rest), b)
    ensures Serve(q, [r] + rest + b) == Serve(Serve(q, [r] + rest), b)
  {
    Regroup([r], rest, b);
    assert Serve(q, [r] + rest) == Serve(q1, rest) by { ServeFirst(q, r, rest); }
    assert Serve(q, [r] + (rest + b)) == Serve(q1, rest + b) by { ServeFirst(q, r, rest + b); }
  }

  lemma HandleWithin(q: State, r: Request)
    requires Sound(q.doc) && Within(q) && Sensible(q, r)
    ensures Within(Handle(q, r))
  {
    match r
    case Remote(crdt, row) => NetLandWithin(q, crdt, row); DrainNetWithin(NetLand(q, crdt, row));
    case RemoteDelete(who, row) => RemoveWithin(q, who, row, false);
    case Local(op) => AddIdeWithin(q, op);
    case LocalDelete(who, row) => RemoveWithin(q, who, row, true);
  }

  lemma HandleInSync(start: seq<Ident>, q: State, r: Request)
    requires Sound(q.doc) && Within(q) && Sensible(q, r) && InSync(start, q)
    ensures InSync(start, Handle(q, r))
  {
    match r
    case Remote(crdt, row) => NetLandInSync(start, q, crdt, row); DrainNetInSync(start, NetLand(q, crdt, row));
    case RemoteDelete(who, row) => RemoveInSync(start, q, who, row, false);
    case Local(op) => AddIdeInSync(start, q, op);
    case LocalDelete(who, row) => RemoveInSync(start, q, who, row, true);
  }

  /** Over every run of local and remote adds and removes, through all backlog drains: while the
      adds are anchored the document is well-formed and equal to the screen that follows the
      callbacks, and every id recorded anywhere is at most the counter. */
  lemma {:induction false} ServeKeeps(start: seq<Ident>, q: State, requests: seq<Request>)
    requires Sound(q.doc) && Within(q) && InSync(start, q) && AllSensible(q, requests)
    ensures Within(Serve(q, requests)) && InSync(start, Serve(q, requests))
    decreases |requests|
  {
    if requests != [] {
      HandleWithin(q, requests[0]);
      HandleInSync(start, q, requests[0]);
      ServeKeeps(start, Handle(q, requests[0]), requests[1..]);
    }
  }

  // ----- What a drain leaves alone -----

  /** The editor side is the same, and an unanchored add stays on record. */
  ghost predicate SameEditorSide(q: State, q': State) {
    (q'.anchored ==> q.anchored) && q'.ids == q.ids && q'.ide == q.ide
  }

  ghost predicate SameNetworkSide(q: State, q': State) {
    (q'.anchored ==> q.anchored) && q'.ids == q.ids && q'.net == q.net && q'.counter == q.counter
  }

  lemma NetLandFrame(q: State, crdt: Crdt, row: nat)
    requires Sound(q.doc)
    ensures SameEditorSide(q, NetLand(q, crdt, row))
  {}

  lemma NetItemFrame(q: State, item: NetOp)
    requires Sound(q.doc)
    ensures SameEditorSide(q, NetItem(q, item))
  {
    if item.NetAdd? { NetLandFrame(q, item.crdt, item.row); }
  }

  lemma {:induction false} DrainNetFrame(q: State)
    requires Sound(q.doc)
    ensures SameEditorSide(q, DrainNet(q))
    decreases NetPending(q), |q.net.work|
  {
    if q.net.work != [] {
      NetItemFrame(q.(net := q.net.(work := q.net.work[1..])), q.net.work[0]);
      DrainNetFrame(PopNet(q));
    }
  }

  lemma IdeLandFrame(q: State, op: IdeAdd)
    requires Sound(q.doc)
    ensures SameNetworkSide(q, IdeLand(q, op))
  {}

  lemma {:induction false} DrainIdeFrame(q: State)
    requires Sound(q.doc)
    ensures SameNetworkSide(q, DrainIde(q))
    decreases IdePending(q), |q.ide.work|
  {
    if q.ide.work != [] {
      IdeLandFrame(q.(ide := q.ide.(work := q.ide.work[1..])), q.ide.work[0]);
      DrainIdeFrame(PopIde(q));
    }
  }

  lemma {:induction false} DrainIdeTagged(q: State)
    requires Sound(q.doc) && Tagged(q)
    ensures Tagged(DrainIde(q))
    decreases IdePending(q), |q.ide.work|
  {
    if q.ide.work != [] {
      var op, q1 := q.ide.work[0], q.(ide := q.ide.(work := q.ide.work[1..]));
      assert op in q.ide.work && forall o :: o in q1.ide.work ==> o in q.ide.work;
      assert Tagged(q1) && HasTag(q.ids.tags)(op);
      IdeLandTagged(q1, op);
      DrainIdeTagged(PopIde(q));
    }
  }

  // ----- Tags -----

  function HasTag(tags: map<u32, Ident>): IdeAdd -> bool {
    (op: IdeAdd) => op.tag in tags
  }

  /** Every editor add that waits has been given its identity. */
  ghost predicate Tagged(q: State) {
    && All(q.ide.backlog, HasTag(q.ids.tags)) && All(q.ide.tagBacklog, HasTag(q.ids.tags))
    && forall op :: op in q.ide.work ==> HasTag(q.ids.tags)(op)
  }

  lemma IdeLandTagged(q: State, op: IdeAdd)
    requires Sound(q.doc) && Tagged(q) && op.tag in q.ids.tags
    ensures Tagged(IdeLand(q, op))
  {
    match Resolve(q, op.parent)
    case None => AllPush(q.ide.tagBacklog, op.parent.tag, op, HasTag(q.ids.tags));
    case Some(parent) =>
      AllPush(q.ide.backlog, parent, op, HasTag(q.ids.tags));
      ReleaseTagged(q, Given(q, op));
  }

  lemma ReleaseTagged(q: State, who: Ident)
    requires Tagged(q)
    ensures Tagged(ReleaseIde(q, who))
  {
    forall o | o in Waiting(q.ide.backlog, who) ensures HasTag(q.ids.tags)(o) {
      assert who in q.ide.backlog && o in q.ide.backlog[who];
    }
  }

  lemma ReceiveTagged(q: State, op: IdeAdd)
    requires Tagged(q) && q.counter < MAX_U32
    ensures Tagged(Receive(q, op)) && op.tag in Receive(q, op).ids.tags
  {
    var tags' := Receive(q, op).ids.tags;
    forall k, o | k in q.ide.backlog && o in q.ide.backlog[k] ensures HasTag(tags')(o) { assert HasTag(q.ids.tags)(o); }
    forall k, o | k in q.ide.tagBacklog && o in q.ide.tagBacklog[k] ensures HasTag(tags')(o) {
      assert HasTag(q.ids.tags)(o);
    }
    forall o | o in q.ide.work ensures HasTag(tags')(o) { assert HasTag(q.ids.tags)(o); }
    forall o | o in Waiting(q.ide.tagBacklog, op.tag) ensures HasTag(tags')(o) {
      assert op.tag in q.ide.tagBacklog && o in q.ide.tagBacklog[op.tag];
    }
  }

  // ----- Local adds -----

  lemma {:induction false} NothingOutranks(d: Doc, i: nat, p: Ident, me: Ident)
    requires i <= |d.flat| && forall x :: x in d.chars ==> x.id < me.id
    ensures Scan(d, i, p, me) == i
  {}

  /** A local add whose parent is live on receipt has a fresh identity and lands immediately
      behind its parent, so peers and the editor are told the same parent. */
  lemma LocalAddLandsBehindParent(q: State, op: IdeAdd, p: Ident)
    requires Sound(q.doc) && WellFormed(q.doc) && Within(q) && q.counter < MAX_U32
    requires Resolve(Receive(q, op), op.parent) == Some(p) && Live(q.doc.chars, p)
    ensures var q', crdt := IdeFirst(Receive(q, op), op),
                            Crdt(Ident(q.counter + 1, q.ids.peer), Relation(op.value, p, false));
      Lands(q.doc.chars, crdt) && q'.doc == Inserted(q.doc, crdt) &&
      q'.doc.flat == InsertAt(q.doc.flat, IndexOf(q.doc.flat, p) + 1, crdt.who) &&
      q'.log == q.log + [Confirmed(op.tag, crdt.who), LocalAdd(crdt, crdt)]
  {
    ReceiveWithin(q, op);
    var q1 := Receive(q, op);
    IdeFirstIsLand(q1, op);
    var crdt := IdeCrdt(q1, op, p);
    FreshLandsBehind(q.doc, crdt);
    assert q1.log + [LocalAdd(crdt, crdt)] == q.log + [Confirmed(op.tag, crdt.who), LocalAdd(crdt, crdt)];
  }

  lemma FreshLandsBehind(d: Doc, crdt: Crdt)
    requires WellFormed(d) && Live(d.chars, crdt.relation.parent) && forall x :: x in d.chars ==> x.id < crdt.who.id
    ensures Slot(d, crdt) == IndexOf(d.flat, crdt.relation.parent) + 1
    ensures Inserted(d, crdt).flat == InsertAt(d.flat, IndexOf(d.flat, crdt.relation.parent) + 1, crdt.who)
    ensures Shown(Inserted(d, crdt), crdt) == crdt
  {
    var p := crdt.relation.parent;
    var s := IndexOf(d.flat, p) + 1;
    assert Slot(d, crdt) == s by { NothingOutranks(d, s, p, crdt.who); }
    assert crdt.who !in d.flat;
    InsertedBehind(d.flat, s, crdt.who);
    ShownAt(Inserted(d, crdt), crdt, s);
  }
}
