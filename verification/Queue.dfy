/** The queue in front of one file, as a state machine: what every operation does to the document,
    the counter, the tag table, the three backlogs and the two worklists, and which callbacks fire. */
module Queue {
  import opened Types
  import opened Lists
  import opened Document

  datatype NetOp = NetAdd(crdt: Crdt, row: nat) | NetRemove(who: Ident, row: nat)

  /** How an editor names a parent: by identity once confirmed, by its own tag before. */
  datatype ParentRef = ById(who: Ident) | ByTag(tag: u32)

  datatype IdeAdd = IdeAdd(parent: ParentRef, value: char, tag: u32, lineHint: nat)

  /** Callbacks, in the order they fire. `shown` names the predecessor on screen as its parent. */
  datatype Event =
    | Confirmed(tag: u32, who: Ident)
    | LocalAdd(sent: Crdt, shown: Crdt)
    | RemoteAdd(shown: Crdt)
    | LocalRemove(who: Ident)
    | RemoteRemove(who: Ident)

  /** This replica's peer id and the identities it has handed out, by tag. */
  datatype Roster = Roster(peer: u32, tags: map<u32, Ident>)

  /** Remote operations that wait for an identity, and those about to be retried. */
  datatype NetSide = NetSide(backlog: map<Ident, seq<NetOp>>, work: seq<NetOp>)

  /** Editor adds that wait for an identity or for a tag, and those about to be retried. */
  datatype IdeSide = IdeSide(backlog: map<Ident, seq<IdeAdd>>, tagBacklog: map<u32, seq<IdeAdd>>, work: seq<IdeAdd>)

  /** `anchored` records whether every add so far that landed was anchored. */
  datatype State = State(doc: Doc, counter: u32, ids: Roster, net: NetSide, ide: IdeSide, log: seq<Event>,
                         anchored: bool)

  /** What a longer log has fired since `log0`. */
  lemma SuffixGrows(log: seq<Event>, log0: seq<Event>, e: Event)
    requires log0 <= log
    ensures log0 <= log + [e] && (log + [e])[|log0|..] == log[|log0|..] + [e]
  {}

  // ----- Backlogs -----

  function Waiting<K, V>(m: map<K, seq<V>>, k: K): seq<V> {
    if k in m then m[k] else []
  }

  function Push<K, V>(m: map<K, seq<V>>, k: K, v: V): map<K, seq<V>> {
    m[k := Waiting(m, k) + [v]]
  }

  ghost function Total<K(!new), V(!new)>(m: map<K, seq<V>>): nat {
    if m == map[] then 0 else var k :| k in m; |m[k]| + Total(m - {k})
  }

  lemma {:induction false} TotalAt<K(!new), V(!new)>(m: map<K, seq<V>>, k: K)
    requires k in m
    ensures Total(m) == |m[k]| + Total(m - {k})
    decreases |m|
  {
    var l :| l in m && Total(m) == |m[l]| + Total(m - {l});
    if l != k {
      TotalAt(m - {l}, k);
      TotalAt(m - {k}, l);
      assert m - {l} - {k} == m - {k} - {l};
    }
  }

  lemma TotalPush<K(!new), V(!new)>(m: map<K, seq<V>>, k: K, v: V)
    ensures Total(Push(m, k, v)) == Total(m) + 1
  {
    var m' := Push(m, k, v);
    TotalAt(m', k);
    assert m' - {k} == m - {k};
    if k in m { TotalAt(m, k); } else { assert m - {k} == m; }
  }

  lemma TotalDrop<K(!new), V(!new)>(m: map<K, seq<V>>, k: K)
    ensures Total(m - {k}) + |Waiting(m, k)| == Total(m)
  {
    if k in m { TotalAt(m, k); } else { assert m - {k} == m; }
  }

  // ----- Landing -----

  /** The add as an editor sees it: its parent is whatever is on screen just before it. */
  function Shown(d: Doc, crdt: Crdt): Crdt {
    if crdt.who in d.flat && IndexOf(d.flat, crdt.who) > 0
    then crdt.(relation := crdt.relation.(parent := d.flat[IndexOf(d.flat, crdt.who) - 1]))
    else crdt
  }

  /** The document takes an add that lands. */
  ghost function Land(q: State, crdt: Crdt): (q': State)
    requires Sound(q.doc) && Lands(q.doc.chars, crdt)
    ensures Sound(q'.doc)
  {
    AddKeepsSound(q.doc, crdt);
    q.(doc := Inserted(q.doc, crdt), anchored := q.anchored && Anchored(q.doc.chars, crdt))
  }

  // ----- Network operations -----

  function Ratchet(q: State, id: u32): State {
    q.(counter := if id > q.counter then id else q.counter)
  }

  function ReleaseNet(q: State, who: Ident): State {
    q.(net := NetSide(q.net.backlog - {who}, q.net.work + Waiting(q.net.backlog, who)))
  }

  /** One remote add, dependants queued but not replayed. */
  ghost function NetLand(q: State, crdt: Crdt, row: nat): (q': State)
    requires Sound(q.doc)
    ensures Sound(q'.doc)
  {
    var q1 := Ratchet(q, crdt.who.id);
    if crdt.who == ROOT then q1
    else if crdt.relation.parent !in q.doc.chars then
      q1.(net := q1.net.(backlog := Push(q1.net.backlog, crdt.relation.parent, NetAdd(crdt, row))))
    else if crdt.who in q.doc.chars then q1
    else
      var q2 := Land(q1, crdt);
      ReleaseNet(q2.(log := q2.log + [RemoteAdd(Shown(q2.doc, crdt))]), crdt.who)
  }

  /** One remove, local or remote. */
  function RemoveOp(q: State, who: Ident, row: nat, local: bool): State {
    if who == ROOT then q
    else if who !in q.doc.chars then q.(net := q.net.(backlog := Push(q.net.backlog, who, NetRemove(who, row))))
    else if q.doc.chars[who].deleted then q
    else q.(doc := Remove(q.doc, who), log := q.log + [if local then LocalRemove(who) else RemoteRemove(who)])
  }

  ghost function NetItem(q: State, item: NetOp): (q': State)
    requires Sound(q.doc)
    ensures Sound(q'.doc)
  {
    match item
    case NetAdd(crdt, row) => NetLand(q, crdt, row)
    case NetRemove(who, row) => RemoveKeepsSound(q.doc, who); RemoveOp(q, who, row, false)
  }

  ghost function NetPending(q: State): nat {
    Total(q.net.backlog) + |q.net.work|
  }

  /** An operation is used up, or goes to the backlog; nothing is lost or made. */
  lemma NetLandPending(q: State, crdt: Crdt, row: nat)
    requires Sound(q.doc)
    ensures var q' := NetLand(q, crdt, row);
      NetPending(q') == NetPending(q) || (NetPending(q') == NetPending(q) + 1 && q'.net.work == q.net.work)
  {
    TotalPush(q.net.backlog, crdt.relation.parent, NetAdd(crdt, row));
    TotalDrop(q.net.backlog, crdt.who);
  }

  lemma NetItemPending(q: State, item: NetOp)
    requires Sound(q.doc)
    ensures var q' := NetItem(q, item);
      NetPending(q') == NetPending(q) || (NetPending(q') == NetPending(q) + 1 && q'.net.work == q.net.work)
  {
    match item
    case NetAdd(crdt, row) => NetLandPending(q, crdt, row);
    case NetRemove(who, row) => TotalPush(q.net.backlog, who, item);
  }

  ghost function PopNet(q: State): (q': State)
    requires Sound(q.doc) && q.net.work != []
    ensures Sound(q'.doc)
    ensures NetPending(q') < NetPending(q) || (NetPending(q') == NetPending(q) && |q'.net.work| < |q.net.work|)
  {
    var q1 := q.(net := q.net.(work := q.net.work[1..]));
    NetItemPending(q1, q.net.work[0]);
    NetItem(q1, q.net.work[0])
  }

  /** Replays queued operations until none is left. */
  ghost function DrainNet(q: State): (q': State)
    requires Sound(q.doc)
    ensures Sound(q'.doc) && q'.net.work == []
    decreases NetPending(q), |q.net.work|
  {
    if q.net.work == [] then q else DrainNet(PopNet(q))
  }

  ghost function AddNetwork(q: State, crdt: Crdt, row: nat): (q': State)
    requires Sound(q.doc)
    ensures Sound(q'.doc)
  {
    var q1 := NetLand(q, crdt, row);
    if crdt.who != ROOT && Lands(q.doc.chars, crdt) && crdt.who in q.net.backlog then DrainNet(q1) else q1
  }

  // ----- Editor operations -----

  function Resolve(q: State, parent: ParentRef): Option<Ident> {
    match parent
    case ById(who) => Some(who)
    case ByTag(tag) => if tag in q.ids.tags then Some(q.ids.tags[tag]) else None
  }

  /** The identity an editor add was given on receipt. */
  function Given(q: State, op: IdeAdd): Ident {
    if op.tag in q.ids.tags then q.ids.tags[op.tag] else ROOT
  }

  function ReleaseIde(q: State, who: Ident): State {
    q.(ide := q.ide.(backlog := q.ide.backlog - {who}, work := q.ide.work + Waiting(q.ide.backlog, who)))
  }

  function Broadcast(q: State, crdt: Crdt): State {
    q.(log := q.log + [LocalAdd(crdt, Shown(q.doc, crdt))])
  }

  function IdeCrdt(q: State, op: IdeAdd, parent: Ident): Crdt {
    Crdt(Given(q, op), Relation(op.value, parent, false))
  }

  /** One editor add from the worklist, dependants queued but not replayed. */
  ghost function IdeLand(q: State, op: IdeAdd): (q': State)
    requires Sound(q.doc)
    ensures Sound(q'.doc)
  {
    match Resolve(q, op.parent)
    case None => q.(ide := q.ide.(tagBacklog := Push(q.ide.tagBacklog, op.parent.tag, op)))
    case Some(parent) =>
      var crdt := IdeCrdt(q, op, parent);
      if parent !in q.doc.chars then q.(ide := q.ide.(backlog := Push(q.ide.backlog, parent, op)))
      else if crdt.who in q.doc.chars then q
      else Broadcast(ReleaseIde(Land(q, crdt), crdt.who), crdt)
  }

  ghost function IdePending(q: State): nat {
    Total(q.ide.backlog) + Total(q.ide.tagBacklog) + |q.ide.work|
  }

  lemma IdeLandPending(q: State, op: IdeAdd)
    requires Sound(q.doc)
    ensures var q' := IdeLand(q, op);
      IdePending(q') == IdePending(q) || (IdePending(q') == IdePending(q) + 1 && q'.ide.work == q.ide.work)
  {
    TotalDrop(q.ide.backlog, Given(q, op));
    match Resolve(q, op.parent)
    case None => TotalPush(q.ide.tagBacklog, op.parent.tag, op);
    case Some(parent) => TotalPush(q.ide.backlog, parent, op);
  }

  ghost function PopIde(q: State): (q': State)
    requires Sound(q.doc) && q.ide.work != []
    ensures Sound(q'.doc)
    ensures IdePending(q') < IdePending(q) || (IdePending(q') == IdePending(q) && |q'.ide.work| < |q.ide.work|)
  {
    var q1 := q.(ide := q.ide.(work := q.ide.work[1..]));
    IdeLandPending(q1, q.ide.work[0]);
    IdeLand(q1, q.ide.work[0])
  }

  ghost function DrainIde(q: State): (q': State)
    requires Sound(q.doc)
    ensures Sound(q'.doc) && q'.ide.work == []
    decreases IdePending(q), |q.ide.work|
  {
    if q.ide.work == [] then q else DrainIde(PopIde(q))
  }

  /** The add that has just been received: its dependants are replayed before it is broadcast. */
  ghost function IdeFirst(q: State, op: IdeAdd): (q': State)
    requires Sound(q.doc)
    ensures Sound(q'.doc)
  {
    match Resolve(q, op.parent)
    case None => q.(ide := q.ide.(tagBacklog := Push(q.ide.tagBacklog, op.parent.tag, op)))
    case Some(parent) =>
      var crdt := IdeCrdt(q, op, parent);
      if parent !in q.doc.chars then q.(ide := q.ide.(backlog := Push(q.ide.backlog, parent, op)))
      else if crdt.who in q.doc.chars then q
      else
        var q1 := Land(q, crdt);
        Broadcast(if crdt.who in q.ide.backlog then DrainIde(ReleaseIde(q1, crdt.who)) else q1, crdt)
  }

  /** Receipt: the next id, the tag table, the confirmation, and whoever waited for the tag. */
  function Receive(q: State, op: IdeAdd): State
    requires q.counter < MAX_U32
  {
    var who := Ident(q.counter + 1, q.ids.peer);
    q.(counter := q.counter + 1, ids := q.ids.(tags := q.ids.tags[op.tag := who]),
       log := q.log + [Confirmed(op.tag, who)],
       ide := q.ide.(tagBacklog := q.ide.tagBacklog - {op.tag}, work := q.ide.work + Waiting(q.ide.tagBacklog, op.tag)))
  }

  ghost function AddIde(q: State, op: IdeAdd): (q': State)
    requires Sound(q.doc) && q.counter < MAX_U32
    ensures Sound(q'.doc)
  {
    DrainIde(IdeFirst(Receive(q, op), op))
  }
}
