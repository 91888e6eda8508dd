/** In which order editor inserts that had to wait for a tag or for an identity are replayed: in the
    order in which they were received, and whatever they let go in turn behind all of them. */
module EditorReplay {
  import opened Types
  import opened Lists
  import opened Document
  import opened Shape
  import opened Queue
  import opened QueueSafety
  import opened Broadcast
  import EditorDelivery

  // ----- One generation after the other -----

  ghost function WithWork(q: State, work: seq<IdeAdd>): State {
    q.(ide := q.ide.(work := work))
  }

  /** The inserts one after the other; what they let go is queued. */
  ghost function Items(q: State, ops: seq<IdeAdd>): (q': State)
    requires Sound(q.doc)
    ensures Sound(q'.doc)
    decreases |ops|
  {
    if ops == [] then q else Items(IdeLand(q, ops[0]), ops[1..])
  }

  /** Everything that waited for the identity of the insert. */
  function LetGo(q: State, op: IdeAdd): seq<IdeAdd> {
    match Resolve(q, op.parent)
    case None => []
    case Some(p) => if Lands(q.doc.chars, IdeCrdt(q, op, p)) then Waiting(q.ide.backlog, Given(q, op)) else []
  }

  /** What an insert lets go queues up behind everything that is to be replayed already. */
  lemma ItemLetsGo(q: State, op: IdeAdd, work: seq<IdeAdd>)
    requires Sound(q.doc)
    ensures IdeLand(WithWork(q, work), op) == WithWork(IdeLand(q, op), work + LetGo(q, op))
  {
    var parent := Resolve(q, op.parent);
    if parent.Some? && Lands(q.doc.chars, IdeCrdt(q, op, parent.value)) {
      var crdt := IdeCrdt(q, op, parent.value);
      assert Shown(Land(WithWork(q, work), crdt).doc, crdt) == Shown(Land(q, crdt).doc, crdt);
    } else {
      assert work + [] == work;
    }
  }

  lemma PopsFirst(q: State, item: IdeAdd, rest: seq<IdeAdd>)
    requires Sound(q.doc)
    ensures DrainIde(WithWork(q, [item] + rest)) == DrainIde(IdeLand(WithWork(q, rest), item))
  {
    assert ([item] + rest)[1..] == rest;
  }

  lemma ItemsFirst(q: State, item: IdeAdd, rest: seq<IdeAdd>)
    requires Sound(q.doc)
    ensures Items(q, [item] + rest) == Items(IdeLand(q, item), rest)
  {
    assert ([item] + rest)[1..] == rest;
  }

  lemma DrainsFirst(q: State, item: IdeAdd, rest: seq<IdeAdd>, rest': seq<IdeAdd>)
    requires Sound(q.doc) && rest' == rest + LetGo(q, item)
    ensures DrainIde(WithWork(q, [item] + rest)) == DrainIde(WithWork(IdeLand(q, item), rest'))
  {
    var q1 := IdeLand(WithWork(q, rest), item);
    assert q1 == WithWork(IdeLand(q, item), rest') by { ItemLetsGo(q, item, rest); }
    PopsFirst(q, item, rest);
  }

  lemma HandlesFirst(q: State, item: IdeAdd, rest: seq<IdeAdd>, work: seq<IdeAdd>, work': seq<IdeAdd>)
    requires Sound(q.doc) && work' == work + LetGo(q, item)
    ensures Items(WithWork(q, work), [item] + rest) == Items(WithWork(IdeLand(q, item), work'), rest)
  {
    var q1 := IdeLand(WithWork(q, work), item);
    assert q1 == WithWork(IdeLand(q, item), work') by { ItemLetsGo(q, item, work); }
    ItemsFirst(WithWork(q, work), item, rest);
  }

  lemma {:induction false} BehindTheFirst(q: State, first: seq<IdeAdd>, work: seq<IdeAdd>)
    requires Sound(q.doc)
    ensures DrainIde(WithWork(q, first + work)) == DrainIde(Items(WithWork(q, work), first))
    decreases |first|
  {
    if first == [] {
      assert first + work == work;
    } else {
      var item, rest := first[0], first[1..];
      var work' := work + LetGo(q, item);
      assert first == [item] + rest;
      assert DrainIde(WithWork(q, first + work)) == DrainIde(WithWork(IdeLand(q, item), rest + work')) by {
        Regroup([item], rest, work);
        Regroup(rest, work, LetGo(q, item));
        DrainsFirst(q, item, rest + work, rest + work');
      }
      assert Items(WithWork(q, work), first) == Items(WithWork(IdeLand(q, item), work'), rest) by {
        HandlesFirst(q, item, rest, work, work');
      }
      BehindTheFirst(IdeLand(q, item), rest, work');
    }
  }

  /** A replay handles all that is queued, in order, before anything that this lets go. */
  lemma GenerationByGeneration(q: State)
    requires Sound(q.doc)
    ensures DrainIde(q) == DrainIde(Items(WithWork(q, []), q.ide.work))
  {
    assert q.ide.work + [] == q.ide.work && WithWork(q, q.ide.work) == q;
    BehindTheFirst(q, q.ide.work, []);
  }

  // ----- Receipts -----

  /** One confirmation for each, in the order of receipt. */
  function Confirms(q: State, ops: seq<IdeAdd>): (log: seq<Event>)
    requires q.counter + |ops| <= MAX_U32
    ensures |log| == |ops|
    ensures forall i :: 0 <= i < |ops| ==> log[i] == Confirmed(ops[i].tag, EditorDelivery.Handed(q, i))
  {
    seq(|ops|, i requires 0 <= i < |ops| => Confirmed(ops[i].tag, EditorDelivery.Handed(q, i)))
  }

  /** The tag table with the identities of `ops`. */
  function TagsOf(q: State, ops: seq<IdeAdd>): map<u32, Ident>
    requires q.counter + |ops| <= MAX_U32
  {
    if ops == [] then q.ids.tags else
      var n := |ops| - 1;
      TagsOf(q, ops[..n])[ops[n].tag := EditorDelivery.Handed(q, n)]
  }

  /** `ops` have been given the next ids, in order, and have been confirmed; that is all. */
  function Numbered(q: State, ops: seq<IdeAdd>): State
    requires q.counter + |ops| <= MAX_U32
  {
    q.(counter := q.counter + |ops|, ids := Roster(q.ids.peer, TagsOf(q, ops)), log := q.log + Confirms(q, ops))
  }

  /** The tags are new and differ, and nothing waits for them. */
  ghost predicate NewTags(q: State, ops: seq<IdeAdd>) {
    && (forall op :: op in ops ==> op.tag !in q.ids.tags && op.tag !in q.ide.tagBacklog)
    && forall i, j :: 0 <= i < j < |ops| ==> ops[i].tag != ops[j].tag
  }

  lemma {:induction false} TagsInOrder(q: State, ops: seq<IdeAdd>)
    requires q.counter + |ops| <= MAX_U32 && NewTags(q, ops)
    ensures forall t :: t in q.ids.tags ==> t in TagsOf(q, ops) && TagsOf(q, ops)[t] == q.ids.tags[t]
    ensures forall t :: t in TagsOf(q, ops) ==> t in q.ids.tags || exists op :: op in ops && op.tag == t
    ensures forall i :: 0 <= i < |ops| ==>
      ops[i].tag in TagsOf(q, ops) && TagsOf(q, ops)[ops[i].tag] == EditorDelivery.Handed(q, i)
  {
    if ops != [] {
      var n := |ops| - 1;
      LastOf(ops);
      assert NewTags(q, ops[..n]);
      TagsInOrder(q, ops[..n]);
    }
  }

  lemma LastOf<T>(s: seq<T>)
    requires s != []
    ensures s == s[..|s| - 1] + [s[|s| - 1]] && s[|s| - 1] in s && forall x :: x in s[..|s| - 1] ==> x in s
  {}

  // ----- Waiting -----

  /** Received while its parent's tag is unknown: numbered, and last of those that wait for the tag. */
  lemma ParksByTag(q: State, op: IdeAdd, t: u32)
    requires Sound(q.doc) && q.counter < MAX_U32 && q.ide.work == [] && op.tag !in q.ide.tagBacklog
    requires op.parent == ByTag(t) && t !in q.ids.tags && t != op.tag
    ensures AddIde(q, op) == Numbered(q, [op]).(ide := q.ide.(
      tagBacklog := q.ide.tagBacklog[t := Waiting(q.ide.tagBacklog, t) + [op]]))
  {
    NumberedIsReceived(q, op);
  }

  /** The parent is `k`, named or by its tag. */
  predicate Names(tags: map<u32, Ident>, op: IdeAdd, k: Ident) {
    match op.parent
    case ById(who) => who == k
    case ByTag(tag) => tag in tags && tags[tag] == k
  }

  /** The same when the parent is named but missing. */
  lemma ParksById(q: State, op: IdeAdd, k: Ident)
    requires Sound(q.doc) && q.counter < MAX_U32 && q.ide.work == [] && op.tag !in q.ide.tagBacklog
    requires Names(q.ids.tags, op, k) && k !in q.doc.chars && (op.parent.ByTag? ==> op.parent.tag != op.tag)
    ensures AddIde(q, op) == Numbered(q, [op]).(ide := q.ide.(
      backlog := q.ide.backlog[k := Waiting(q.ide.backlog, k) + [op]]))
  {
    NumberedIsReceived(q, op);
  }

  lemma NumberedIsReceived(q: State, op: IdeAdd)
    requires q.counter < MAX_U32 && op.tag !in q.ide.tagBacklog
    ensures Receive(q, op) == Numbered(q, [op])
  {
    assert q.ide.tagBacklog - {op.tag} == q.ide.tagBacklog && q.ide.work + [] == q.ide.work;
    NumberedOne(q, op);
  }

  lemma NumberedOne(q: State, op: IdeAdd)
    requires q.counter < MAX_U32
    ensures var who := EditorDelivery.Handed(q, 0);
      Confirms(q, [op]) == [Confirmed(op.tag, who)] &&
      Numbered(q, [op]) == q.(counter := q.counter + 1, ids := Roster(q.ids.peer, q.ids.tags[op.tag := who]),
                              log := q.log + [Confirmed(op.tag, who)])
  {
    assert [op][..0] == [] && TagsOf(q, [op][..0]) == q.ids.tags;
    assert Confirms(q, [op]) == [Confirmed(op.tag, EditorDelivery.Handed(q, 0))];
  }

  /** One more, whatever waits by then. */
  lemma NumberedSnoc(q: State, ops: seq<IdeAdd>, op: IdeAdd, ide: IdeSide)
    requires q.counter + |ops| + 1 <= MAX_U32
    ensures Numbered(Numbered(q, ops).(ide := ide), [op]) == Numbered(q, ops + [op]).(ide := ide)
  {
    var q1 := Numbered(q, ops).(ide := ide);
    NumberedOne(q1, op);
    assert (ops + [op])[..|ops|] == ops && (ops + [op])[|ops|] == op;
    assert Confirms(q, ops + [op]) == Confirms(q, ops) + Confirms(q1, [op]);
    Regroup(q.log, Confirms(q, ops), Confirms(q1, [op]));
  }

  ghost predicate WaitingForTag(q: State, t: u32, ops: seq<IdeAdd>, q': State)
    requires q.counter + |ops| <= MAX_U32
  {
    q' == Numbered(q, ops).(ide := q.ide.(tagBacklog := q.ide.tagBacklog[t := Waiting(q.ide.tagBacklog, t) + ops]))
  }

  ghost predicate WaitingForId(q: State, k: Ident, ops: seq<IdeAdd>, q': State)
    requires q.counter + |ops| <= MAX_U32
  {
    q' == Numbered(q, ops).(ide := q.ide.(backlog := q.ide.backlog[k := Waiting(q.ide.backlog, k) + ops]))
  }

  ghost function Taken(q: State, op: IdeAdd): (q': State)
    requires Sound(q.doc)
    ensures Sound(q'.doc)
  {
    if q.counter < MAX_U32 then AddIde(q, op) else q
  }

  lemma ReceiveSnoc(q: State, ops: seq<IdeAdd>, op: IdeAdd)
    requires Sound(q.doc)
    ensures EditorDelivery.ReceiveAll(q, ops + [op]) == Taken(EditorDelivery.ReceiveAll(q, ops), op)
  {
    assert (ops + [op])[..|ops|] == ops && (ops + [op])[|ops|] == op;
  }

  lemma {:induction false} ReceiveConcat(q: State, a: seq<IdeAdd>, b: seq<IdeAdd>)
    requires Sound(q.doc)
    ensures EditorDelivery.ReceiveAll(q, a + b) == EditorDelivery.ReceiveAll(EditorDelivery.ReceiveAll(q, a), b)
    decreases |b|
  {
    if b == [] {
      assert a + b == a;
    } else {
      var before, op := b[..|b| - 1], b[|b| - 1];
      LastOf(b);
      Regroup(a, before, [op]);
      ReceiveConcat(q, a, before);
      ReceiveSnoc(q, a + before, op);
      ReceiveSnoc(EditorDelivery.ReceiveAll(q, a), before, op);
    }
  }

  /** New inserts whose parent has the tag `t`, not handed out yet. */
  ghost predicate AllForTag(q: State, t: u32, ops: seq<IdeAdd>) {
    NewTags(q, ops) && t !in q.ids.tags && forall op :: op in ops ==> op.parent == ByTag(t) && op.tag != t
  }

  lemma LastForTag(q: State, t: u32, before: seq<IdeAdd>, op: IdeAdd)
    requires q.counter + |before| <= MAX_U32 && AllForTag(q, t, before + [op])
    ensures AllForTag(q, t, before) && op.parent == ByTag(t) && op.tag != t && op.tag !in q.ide.tagBacklog
    ensures t !in TagsOf(q, before)
  {
    var ops := before + [op];
    assert ops[|before|] == op && forall i :: 0 <= i < |before| ==> ops[i] == before[i];
    forall o | o in before ensures o in ops {}
    assert op in ops;
    TagsInOrder(q, before);
  }

  /** What waits for one tag waits in the order of receipt. */
  lemma {:induction false} WaitsForTagInOrder(q: State, t: u32, ops: seq<IdeAdd>)
    requires Sound(q.doc) && q.counter + |ops| <= MAX_U32 && q.ide.work == [] && ops != [] && AllForTag(q, t, ops)
    ensures WaitingForTag(q, t, ops, EditorDelivery.ReceiveAll(q, ops))
  {
    var before, op := ops[..|ops| - 1], ops[|ops| - 1];
    assert ops == before + [op];
    LastForTag(q, t, before, op);
    ReceiveSnoc(q, before, op);
    if before == [] {
      assert EditorDelivery.ReceiveAll(q, before) == q;
      FirstForTag(q, t, before, op);
    } else {
      WaitsForTagInOrder(q, t, before);
      OneMoreForTag(q, t, before, EditorDelivery.ReceiveAll(q, before), op);
    }
  }

  lemma FirstForTag(q: State, t: u32, none: seq<IdeAdd>, op: IdeAdd)
    requires Sound(q.doc) && q.counter < MAX_U32 && q.ide.work == [] && op.tag !in q.ide.tagBacklog
    requires op.parent == ByTag(t) && t !in q.ids.tags && t != op.tag && none == []
    ensures WaitingForTag(q, t, none + [op], AddIde(q, op))
  {
    assert none + [op] == [op];
    ParksByTag(q, op, t);
  }

  lemma OneMoreForTag(q: State, t: u32, ops: seq<IdeAdd>, q1: State, op: IdeAdd)
    requires q.counter + |ops| + 1 <= MAX_U32 && WaitingForTag(q, t, ops, q1) && Sound(q1.doc) && q.ide.work == []
    requires t !in TagsOf(q, ops) && op.parent == ByTag(t) && op.tag != t && op.tag !in q.ide.tagBacklog
    ensures WaitingForTag(q, t, ops + [op], AddIde(q1, op))
  {
    var ide := q1.ide.(tagBacklog := q1.ide.tagBacklog[t := Waiting(q1.ide.tagBacklog, t) + [op]]);
    assert AddIde(q1, op) == Numbered(q1, [op]).(ide := ide) by { ParksByTag(q1, op, t); }
    assert Numbered(q1, [op]) == Numbered(q, ops + [op]).(ide := q1.ide) by { NumberedSnoc(q, ops, op, q1.ide); }
    PushedTwice(q.ide.tagBacklog, t, ops, op);
  }

  /** New inserts whose parent is `k`. */
  ghost predicate AllForId(q: State, k: Ident, ops: seq<IdeAdd>) {
    NewTags(q, ops) && forall op :: op in ops ==> Names(q.ids.tags, op, k)
  }

  lemma LastForId(q: State, k: Ident, before: seq<IdeAdd>, op: IdeAdd)
    requires q.counter + |before| <= MAX_U32 && AllForId(q, k, before + [op])
    ensures AllForId(q, k, before) && Names(q.ids.tags, op, k) && Names(TagsOf(q, before), op, k)
    ensures op.tag !in q.ide.tagBacklog && op.tag !in q.ids.tags
  {
    var ops := before + [op];
    assert ops[|before|] == op && forall i :: 0 <= i < |before| ==> ops[i] == before[i];
    forall o | o in before ensures o in ops {}
    assert op in ops;
    TagsInOrder(q, before);
  }

  /** What waits for one identity waits in the order of receipt. */
  lemma {:induction false} WaitsForIdInOrder(q: State, k: Ident, ops: seq<IdeAdd>)
    requires Sound(q.doc) && q.counter + |ops| <= MAX_U32 && q.ide.work == [] && ops != [] && AllForId(q, k, ops)
    requires k !in q.doc.chars
    ensures WaitingForId(q, k, ops, EditorDelivery.ReceiveAll(q, ops))
  {
    var before, op := ops[..|ops| - 1], ops[|ops| - 1];
    assert ops == before + [op];
    LastForId(q, k, before, op);
    ReceiveSnoc(q, before, op);
    if before == [] {
      assert EditorDelivery.ReceiveAll(q, before) == q;
      FirstForId(q, k, before, op);
    } else {
      WaitsForIdInOrder(q, k, before);
      OneMoreForId(q, k, before, EditorDelivery.ReceiveAll(q, before), op);
    }
  }

  lemma FirstForId(q: State, k: Ident, none: seq<IdeAdd>, op: IdeAdd)
    requires Sound(q.doc) && q.counter < MAX_U32 && q.ide.work == [] && op.tag !in q.ide.tagBacklog
    requires Names(q.ids.tags, op, k) && k !in q.doc.chars && op.tag !in q.ids.tags && none == []
    ensures WaitingForId(q, k, none + [op], AddIde(q, op))
  {
    assert none + [op] == [op];
    ParksById(q, op, k);
  }

  lemma OneMoreForId(q: State, k: Ident, ops: seq<IdeAdd>, q1: State, op: IdeAdd)
    requires q.counter + |ops| + 1 <= MAX_U32 && WaitingForId(q, k, ops, q1) && Sound(q1.doc) && q.ide.work == []
    requires k !in q.doc.chars && Names(TagsOf(q, ops), op, k) && op.tag !in q.ide.tagBacklog
    requires op.parent.ByTag? ==> op.parent.tag != op.tag
    ensures WaitingForId(q, k, ops + [op], AddIde(q1, op))
  {
    var ide := q1.ide.(backlog := q1.ide.backlog[k := Waiting(q1.ide.backlog, k) + [op]]);
    assert AddIde(q1, op) == Numbered(q1, [op]).(ide := ide) by { ParksById(q1, op, k); }
    assert Numbered(q1, [op]) == Numbered(q, ops + [op]).(ide := q1.ide) by { NumberedSnoc(q, ops, op, q1.ide); }
    PushedTwice(q.ide.backlog, k, ops, op);
  }

  lemma PushedTwice<K>(m: map<K, seq<IdeAdd>>, k: K, ops: seq<IdeAdd>, op: IdeAdd)
    ensures var m1 := m[k := Waiting(m, k) + ops];
      m1[k := Waiting(m1, k) + [op]] == m[k := Waiting(m, k) + (ops + [op])]
  {
    Regroup(Waiting(m, k), ops, [op]);
  }

  // ----- Replaying what is ready -----

  /** The parent is there, and the identities are new and let nothing go. */
  ghost predicate Ready(q: State, ops: seq<IdeAdd>, k: Ident) {
    && k in q.doc.chars
    && (forall op :: op in ops ==> Names(q.ids.tags, op, k) && op.tag in q.ids.tags && Fresh(q, Given(q, op)))
    && forall i, j :: 0 <= i < j < |ops| ==> Given(q, ops[i]) != Given(q, ops[j])
  }

  predicate Fresh(q: State, who: Ident) {
    who !in q.doc.chars && who !in q.ide.backlog
  }

  function Planted(q: State, ops: seq<IdeAdd>, k: Ident): (news: seq<Op>)
    ensures |news| == |ops| && forall i :: 0 <= i < |ops| ==> news[i] == Insert(IdeCrdt(q, ops[i], k))
  {
    seq(|ops|, i requires 0 <= i < |ops| => Insert(IdeCrdt(q, ops[i], k)))
  }

  /** `crdt` has landed and been broadcast, and whatever waited for it is queued; nothing else has happened. */
  ghost predicate LandedAlone(q: State, crdt: Crdt, q': State)
    requires Sound(q.doc)
  {
    && q'.doc == Step(q.doc, Insert(crdt)) && q'.ids == q.ids && q'.doc.chars.Keys == q.doc.chars.Keys + {crdt.who}
    && q'.ide == ReleaseIde(q, crdt.who).ide && Outgoing(q'.log) == Outgoing(q.log) + [Insert(crdt)]
  }

  lemma LandsAtOnce(q: State, op: IdeAdd, k: Ident)
    requires Sound(q.doc) && Names(q.ids.tags, op, k) && k in q.doc.chars && Given(q, op) !in q.doc.chars
    ensures LandedAlone(q, IdeCrdt(q, op, k), IdeLand(q, op))
  {
    var crdt := IdeCrdt(q, op, k);
    var e := LocalAdd(crdt, Shown(Inserted(q.doc, crdt), crdt));
    assert Land(q, crdt).doc == Inserted(q.doc, crdt) == Step(q.doc, Insert(crdt));
    assert IdeLand(q, op) == ReleaseIde(Land(q, crdt), crdt.who).(log := q.log + [e]);
    OutgoingGrows(q.log, e);
  }

  lemma NothingReleased(q: State, who: Ident)
    requires who !in q.ide.backlog
    ensures ReleaseIde(q, who) == q
  {
    assert q.ide.backlog - {who} == q.ide.backlog && q.ide.work + [] == q.ide.work;
  }

  /** `news` has happened between the two states, and nothing is waiting that was not. */
  ghost predicate Happened(q: State, news: seq<Op>, q': State)
    requires Sound(q.doc)
  {
    q'.doc == Run(q.doc, news) && q'.ide == q.ide && Outgoing(q'.log) == Outgoing(q.log) + news
  }

  lemma HappenedFirst(q: State, crdt: Crdt, news: seq<Op>, q1: State, q': State)
    requires Sound(q.doc) && Sound(q1.doc) && Happened(q1, news, q') && q1.doc == Step(q.doc, Insert(crdt))
    requires Outgoing(q1.log) == Outgoing(q.log) + [Insert(crdt)]
    ensures q'.ide == q.ide ==> Happened(q, [Insert(crdt)] + news, q')
  {
    assert ([Insert(crdt)] + news)[1..] == news;
    Regroup(Outgoing(q.log), [Insert(crdt)], news);
  }

  lemma PlantedFirst(q: State, op: IdeAdd, rest: seq<IdeAdd>, k: Ident, q1: State)
    requires q1.ids == q.ids
    ensures Planted(q, [op] + rest, k) == [Insert(IdeCrdt(q, op, k))] + Planted(q1, rest, k)
  {}

  /** Inserts that are ready land one after the other, in order, each broadcast as it lands. */
  lemma {:induction false} ReadyItems(q: State, ops: seq<IdeAdd>, k: Ident)
    requires Sound(q.doc) && Ready(q, ops, k)
    ensures Happened(q, Planted(q, ops, k), Items(q, ops))
    decreases |ops|
  {
    if ops == [] {
      assert Outgoing(q.log) + [] == Outgoing(q.log) && Planted(q, ops, k) == [];
    } else {
      var op, rest := ops[0], ops[1..];
      var q1 := IdeLand(q, op);
      assert op in ops && ops == [op] + rest;
      assert LandedAlone(q, IdeCrdt(q, op, k), q1) && q1.ide == q.ide by {
        LandsAtOnce(q, op, k);
        NothingReleased(q, Given(q, op));
      }
      ReadyRest(q, op, rest, k, q1);
      ReadyItems(q1, rest, k);
      assert Items(q, ops) == Items(q1, rest) by { ItemsFirst(q, op, rest); }
      HappenedFirst(q, IdeCrdt(q, op, k), Planted(q1, rest, k), q1, Items(q1, rest));
      PlantedFirst(q, op, rest, k, q1);
    }
  }

  lemma ReadyRest(q: State, op: IdeAdd, rest: seq<IdeAdd>, k: Ident, q1: State)
    requires Ready(q, [op] + rest, k) && q1.ide == q.ide && q1.ids == q.ids
    requires q1.doc.chars.Keys == q.doc.chars.Keys + {Given(q, op)}
    ensures Ready(q1, rest, k)
  {
    var ops := [op] + rest;
    forall o | o in rest ensures Names(q1.ids.tags, o, k) && o.tag in q1.ids.tags && Fresh(q1, Given(q1, o)) {
      var j :| 0 <= j < |rest| && rest[j] == o;
      assert ops[j + 1] == o && o in ops && ops[0] == op;
    }
    forall i, j | 0 <= i < j < |rest| ensures Given(q1, rest[i]) != Given(q1, rest[j]) {
      assert ops[i + 1] == rest[i] && ops[j + 1] == rest[j];
    }
  }

  /** A replay of inserts that are ready is just that. */
  lemma ReadyDrain(q: State, ops: seq<IdeAdd>, k: Ident)
    requires Sound(q.doc) && q.ide.work == ops && Ready(WithWork(q, []), ops, k)
    ensures Happened(WithWork(q, []), Planted(q, ops, k), DrainIde(q))
  {
    var q0 := WithWork(q, []);
    ReadyItems(q0, ops, k);
    GenerationByGeneration(q);
    PlantedSame(q, q0, ops, k);
    var q' := Items(q0, ops);
    assert DrainIde(q') == q';
  }

  lemma PlantedSame(q: State, q': State, ops: seq<IdeAdd>, k: Ident)
    requires q.ids == q'.ids
    ensures Planted(q, ops, k) == Planted(q', ops, k)
  {}

  // ----- The theorems -----

  /** The next identities but `from`. */
  function Handouts(q: State, from: nat, n: nat): (whos: seq<Ident>)
    requires q.counter + from + n <= MAX_U32
    ensures |whos| == n && forall i :: 0 <= i < n ==> whos[i] == EditorDelivery.Handed(q, from + i)
  {
    seq(n, i requires 0 <= i < n => EditorDelivery.Handed(q, from + i))
  }

  /** Inserts under `k`, in this order. */
  function Landings(whos: seq<Ident>, ops: seq<IdeAdd>, k: Ident): (news: seq<Op>)
    requires |whos| == |ops|
    ensures |news| == |ops|
    ensures forall i :: 0 <= i < |ops| ==> news[i] == Insert(Crdt(whos[i], Relation(ops[i].value, k, false)))
  {
    seq(|ops|, i requires 0 <= i < |ops| => Insert(Crdt(whos[i], Relation(ops[i].value, k, false))))
  }

  /** Ids that are still to come are nobody's. */
  lemma HandedIsFresh(q: State, i: nat)
    requires Within(q) && q.counter + 1 + i <= MAX_U32
    ensures Fresh(q, EditorDelivery.Handed(q, i))
  {}

  lemma HandoutsAreFresh(q: State, from: nat, n: nat)
    requires Within(q) && q.counter + from + n <= MAX_U32
    ensures AllFresh(q, Handouts(q, from, n))
  {}

  /** The insert whose tag is waited for: it lands, and the waiters are queued. */
  lemma AwaitedLands(q: State, op: IdeAdd, p: Ident)
    requires Sound(q.doc) && q.counter < MAX_U32 && q.ide.work == [] && p in q.doc.chars
    requires Names(q.ids.tags, op, p) && op.tag !in q.ids.tags && Fresh(q, EditorDelivery.Handed(q, 0))
    ensures var r, crdt := Receive(q, op), Crdt(EditorDelivery.Handed(q, 0), Relation(op.value, p, false));
      AddIde(q, op) == DrainIde(IdeLand(r, op)) && LandedAlone(r, crdt, IdeLand(r, op)) &&
      Outgoing(r.log) == Outgoing(q.log)
  {
    var r := Receive(q, op);
    assert Given(r, op) == EditorDelivery.Handed(q, 0) && Names(r.ids.tags, op, p);
    IdeFirstIsLand(r, op);
    LandsAtOnce(r, op, p);
    OutgoingGrows(q.log, Confirmed(op.tag, EditorDelivery.Handed(q, 0)));
  }

  lemma {:induction false} NothingToldYet(q: State, ops: seq<IdeAdd>)
    requires q.counter + |ops| <= MAX_U32
    ensures Outgoing(Numbered(q, ops).log) == Outgoing(q.log)
    decreases |ops|
  {
    if ops == [] {
      assert q.log + [] == q.log;
    } else {
      var n := |ops| - 1;
      LastOf(ops);
      NothingToldYet(q, ops[..n]);
      NumberedSnoc(q, ops[..n], ops[n], q.ide);
      NumberedOne(Numbered(q, ops[..n]), ops[n]);
      OutgoingGrows(Numbered(q, ops[..n]).log, Confirmed(ops[n].tag, EditorDelivery.Handed(q, n)));
    }
  }

  /** Nothing has landed or been broadcast, and `waiters` wait for the tag `t`. */
  ghost predicate Awaiting(q: State, t: u32, waiters: seq<IdeAdd>, q1: State) {
    && q1.doc == q.doc && q1.ids.peer == q.ids.peer && Outgoing(q1.log) == Outgoing(q.log) && q1.ide.work == []
    && Waiting(q1.ide.tagBacklog, t) == waiters && q1.ide.tagBacklog - {t} == q.ide.tagBacklog
  }

  /** `add` has landed under `p` with the identity `k`, and `waiters` are queued. */
  ghost predicate Awaited(q: State, k: Ident, add: IdeAdd, p: Ident, waiters: seq<IdeAdd>, q': State)
    requires Sound(q.doc)
  {
    var crdt := Crdt(k, Relation(add.value, p, false));
    q'.doc == Step(q.doc, Insert(crdt)) && q'.doc.chars.Keys == q.doc.chars.Keys + {k} &&
    q'.ide.tagBacklog == q.ide.tagBacklog && q'.ide.work == waiters &&
    Outgoing(q'.log) == Outgoing(q.log) + [Insert(crdt)]
  }

  lemma AwaitedArrives(q: State, k: Ident, add: IdeAdd, p: Ident, waiters: seq<IdeAdd>, q1: State)
    requires Sound(q.doc) && Sound(q1.doc) && Awaiting(q, add.tag, waiters, q1) && q1.counter < MAX_U32
    requires Names(q1.ids.tags, add, p) && p in q1.doc.chars && add.tag !in q1.ids.tags
    requires k == EditorDelivery.Handed(q1, 0) && Fresh(q1, k)
    ensures var q2 := IdeLand(Receive(q1, add), add);
      AddIde(q1, add) == DrainIde(q2) && Awaited(q, k, add, p, waiters, q2) &&
      q2.ide.backlog == q1.ide.backlog && q2.ids.tags == q1.ids.tags[add.tag := k]
  {
    var r := Receive(q1, add);
    AwaitedLands(q1, add, p);
    assert r.ide == IdeSide(q1.ide.backlog, q.ide.tagBacklog, waiters) by { assert [] + waiters == waiters; }
    NothingReleased(r, k);
  }

  /** Editor inserts that name a parent by a tag which is still unknown have, once the insert with that
      tag is received, the effect that they would have had right behind it, in the order in which they
      were received. They are broadcast in that order too. */
  lemma EarlyByTagIsInOrder(q: State, ops: seq<IdeAdd>, add: IdeAdd, p: Ident)
    requires Sound(q.doc) && Within(q) && q.ide.work == [] && q.counter + |ops| + 1 <= MAX_U32
    requires AllForTag(q, add.tag, ops) && add.tag !in q.ide.tagBacklog
    requires Names(q.ids.tags, add, p) && p in q.doc.chars
    ensures var k := EditorDelivery.Handed(q, |ops|);
      Happened(q, [Insert(Crdt(k, Relation(add.value, p, false)))] + Landings(Handouts(q, 0, |ops|), ops, k),
        EditorDelivery.ReceiveAll(q, ops + [add]))
  {
    var k, q1 := EditorDelivery.Handed(q, |ops|), EditorDelivery.ReceiveAll(q, ops);
    WaitersAwait(q, add.tag, ops);
    ReceiveSnoc(q, ops, add);
    TagsInOrder(q, ops);
    HandedIsFresh(q, |ops|);
    AwaitsTag(q, k, ops, add, p, q1);
    var q2 := IdeLand(Receive(q1, add), add);
    ReadyForTag(q, k, ops, add, p, q2);
    WaitersFollow(q, k, add, p, Handouts(q, 0, |ops|), ops, q2);
  }

  /** The queued inserts, all of them ready, land behind the awaited one. */
  lemma WaitersFollow(q: State, k: Ident, add: IdeAdd, p: Ident, whos: seq<Ident>, ops: seq<IdeAdd>, q2: State)
    requires Sound(q.doc) && Sound(q2.doc) && Awaited(q, k, add, p, ops, q2) && q.ide.work == []
    requires q2.ide.backlog == q.ide.backlog && ReadyAs(q2, whos, ops, k)
    ensures Happened(q, [Insert(Crdt(k, Relation(add.value, p, false)))] + Landings(whos, ops, k), DrainIde(q2))
  {
    ReadyByIndex(q2, whos, ops, k);
    ReadyDrain(q2, ops, k);
    assert Planted(q2, ops, k) == Landings(whos, ops, k);
    HappenedFirst(q, Crdt(k, Relation(add.value, p, false)), Planted(q2, ops, k), WithWork(q2, []), DrainIde(q2));
  }

  /** The inserts have these identities, all of them new, and `k` is there. */
  ghost predicate ReadyAs(q: State, whos: seq<Ident>, ops: seq<IdeAdd>, k: Ident) {
    && |whos| == |ops| && k in q.doc.chars && Distinct(whos)
    && (forall i :: 0 <= i < |ops| ==> Names(q.ids.tags, ops[i], k))
    && (forall i :: 0 <= i < |ops| ==> ops[i].tag in q.ids.tags && q.ids.tags[ops[i].tag] == whos[i])
    && forall i :: 0 <= i < |whos| ==> Fresh(q, whos[i])
  }

  lemma ReadyByIndex(q: State, whos: seq<Ident>, ops: seq<IdeAdd>, k: Ident)
    requires ReadyAs(q, whos, ops, k)
    ensures Ready(WithWork(q, []), ops, k)
  {
    var q0 := WithWork(q, []);
    forall op | op in ops ensures Names(q0.ids.tags, op, k) && op.tag in q0.ids.tags && Fresh(q0, Given(q0, op)) {
      var i :| 0 <= i < |ops| && ops[i] == op;
      assert Fresh(q, whos[i]);
    }
  }

  lemma AwaitsTag(q: State, k: Ident, ops: seq<IdeAdd>, add: IdeAdd, p: Ident, q1: State)
    requires Sound(q.doc) && q.ide.work == [] && q.counter + |ops| + 1 <= MAX_U32 && add.tag !in q.ide.tagBacklog
    requires Sound(q1.doc) && Await(q, add.tag, ops, q1)
    requires Names(TagsOf(q, ops), add, p) && p in q.doc.chars && add.tag !in TagsOf(q, ops)
    requires k == EditorDelivery.Handed(q, |ops|) && Fresh(q, k)
    ensures var q2 := IdeLand(Receive(q1, add), add);
      AddIde(q1, add) == DrainIde(q2) && Awaited(q, k, add, p, ops, q2) &&
      q2.ide.backlog == q.ide.backlog && q2.ids.tags == TagsOf(q, ops)[add.tag := k]
  {
    AwaitedArrives(q, k, add, p, ops, q1);
  }

  /** `ops` have been received and wait for the tag `t`; nothing else has happened. */
  ghost predicate Await(q: State, t: u32, ops: seq<IdeAdd>, q1: State)
    requires q.counter + |ops| <= MAX_U32
  {
    && Awaiting(q, t, ops, q1) && q1.counter == q.counter + |ops| && q1.ids.tags == TagsOf(q, ops)
    && q1.ide.backlog == q.ide.backlog
  }

  lemma WaitersAwait(q: State, t: u32, ops: seq<IdeAdd>)
    requires Sound(q.doc) && q.counter + |ops| <= MAX_U32 && q.ide.work == [] && AllForTag(q, t, ops)
    requires t !in q.ide.tagBacklog
    ensures Await(q, t, ops, EditorDelivery.ReceiveAll(q, ops))
  {
    var q1 := EditorDelivery.ReceiveAll(q, ops);
    if ops == [] {
      assert q1 == q && q.ide.tagBacklog - {t} == q.ide.tagBacklog;
    } else {
      WaitsForTagInOrder(q, t, ops);
      WaitingIsAwait(q, t, ops, q1);
    }
  }

  lemma WaitingIsAwait(q: State, t: u32, ops: seq<IdeAdd>, q1: State)
    requires q.ide.work == [] && q.counter + |ops| <= MAX_U32 && t !in q.ide.tagBacklog && WaitingForTag(q, t, ops, q1)
    ensures Await(q, t, ops, q1)
  {
    NumberedFields(q, ops, q1);
    assert Outgoing(q1.log) == Outgoing(q.log) by { NothingToldYet(q, ops); }
    assert Waiting(q1.ide.tagBacklog, t) == ops && q1.ide.tagBacklog - {t} == q.ide.tagBacklog by {
      TagReleased(q, t, ops);
    }
  }

  lemma NumberedFields(q: State, ops: seq<IdeAdd>, q1: State)
    requires q.counter + |ops| <= MAX_U32 && q1 == Numbered(q, ops).(ide := q1.ide)
    ensures q1.doc == q.doc && q1.counter == q.counter + |ops| && q1.ids == Roster(q.ids.peer, TagsOf(q, ops))
    ensures q1.log == Numbered(q, ops).log
  {}

  lemma TagReleased(q: State, t: u32, ops: seq<IdeAdd>)
    requires t !in q.ide.tagBacklog && q.ide.work == []
    ensures var waiting := q.ide.tagBacklog[t := Waiting(q.ide.tagBacklog, t) + ops];
      waiting - {t} == q.ide.tagBacklog && q.ide.work + Waiting(waiting, t) == ops
  {
    assert [] + ops == ops;
  }

  lemma ReadyForTag(q: State, k: Ident, ops: seq<IdeAdd>, add: IdeAdd, p: Ident, q2: State)
    requires Sound(q.doc) && Within(q) && q.counter + |ops| + 1 <= MAX_U32 && AllForTag(q, add.tag, ops)
    requires k == EditorDelivery.Handed(q, |ops|) && Awaited(q, k, add, p, ops, q2)
    requires q2.ide.backlog == q.ide.backlog && q2.ids.tags == TagsOf(q, ops)[add.tag := k]
    ensures ReadyAs(q2, Handouts(q, 0, |ops|), ops, k)
  {
    var whos := Handouts(q, 0, |ops|);
    HandoutsAreFresh(q, 0, |ops|);
    TagsInOrder(q, ops);
    forall i | 0 <= i < |ops|
      ensures Names(q2.ids.tags, ops[i], k) && ops[i].tag in q2.ids.tags && q2.ids.tags[ops[i].tag] == whos[i]
    {
      assert ops[i] in ops;
    }
    forall i | 0 <= i < |whos| ensures Fresh(q2, whos[i]) { assert Fresh(q, whos[i]) && whos[i] != k; }
  }

  // ----- Waiting for an identity -----

  /** What the tags stand for once `x` has got `k`, and `ops` have got `whos`. */
  ghost predicate TagsOfBoth(tags0: map<u32, Ident>, x: IdeAdd, k: Ident, ops: seq<IdeAdd>, whos: seq<Ident>,
                             tags: map<u32, Ident>)
    requires |whos| == |ops|
  {
    && x.tag in tags && tags[x.tag] == k && (forall s :: s in tags0 ==> s in tags && tags[s] == tags0[s])
    && forall i :: 0 <= i < |ops| ==> ops[i].tag in tags && tags[ops[i].tag] == whos[i]
  }

  /** `x` waits for the tag `t` with the identity `k`, and `ops` wait for `k`; nothing else has happened. */
  ghost predicate AwaitBoth(q: State, t: u32, x: IdeAdd, k: Ident, ops: seq<IdeAdd>, q2: State)
    requires q.counter + 1 + |ops| <= MAX_U32
  {
    && Awaiting(q, t, [x], q2) && q2.counter == q.counter + 1 + |ops|
    && Waiting(q2.ide.backlog, k) == ops && q2.ide.backlog - {k} == q.ide.backlog
    && TagsOfBoth(q.ids.tags, x, k, ops, Handouts(q, 1, |ops|), q2.ids.tags) && t !in q2.ids.tags
  }

  /** `x` hangs from the tag `t`, which is still unknown, and `ops` hang from `x`: they name it by the
      identity that it has been given, or by its tag. */
  ghost predicate Chained(q: State, t: u32, x: IdeAdd, ops: seq<IdeAdd>)
    requires q.counter < MAX_U32
  {
    && AllForTag(q, t, [x]) && NewTags(q, [x] + ops) && t !in q.ide.tagBacklog
    && (forall op :: op in ops ==> op.tag != t)
    && forall op :: op in ops ==> op.parent == ByTag(x.tag) || op.parent == ById(EditorDelivery.Handed(q, 0))
  }

  /** `x` has been received with the identity `k`, and waits for the tag `t`. */
  ghost predicate AwaitOne(q: State, t: u32, x: IdeAdd, k: Ident, q1: State)
    requires q.counter < MAX_U32
  {
    && Awaiting(q, t, [x], q1) && q1.counter == q.counter + 1 && q1.ids.tags == q.ids.tags[x.tag := k]
    && q1.ide.backlog == q.ide.backlog
  }

  lemma FirstAwaits(q: State, t: u32, x: IdeAdd)
    requires Sound(q.doc) && q.ide.work == [] && q.counter < MAX_U32 && AllForTag(q, t, [x]) && t !in q.ide.tagBacklog
    ensures AwaitOne(q, t, x, EditorDelivery.Handed(q, 0), EditorDelivery.ReceiveAll(q, [x]))
  {
    WaitersAwait(q, t, [x]);
    NumberedOne(q, x);
  }

  lemma ChainedWaits(q: State, t: u32, x: IdeAdd, k: Ident, ops: seq<IdeAdd>)
    requires Sound(q.doc) && q.ide.work == [] && q.counter + 1 + |ops| <= MAX_U32 && Chained(q, t, x, ops)
    requires k == EditorDelivery.Handed(q, 0) && Fresh(q, k)
    ensures AwaitBoth(q, t, x, k, ops, EditorDelivery.ReceiveAll(q, [x] + ops))
  {
    var q1 := EditorDelivery.ReceiveAll(q, [x]);
    FirstAwaits(q, t, x);
    ReceiveConcat(q, [x], ops);
    ChainedRest(q, t, x, ops, q1);
    if ops == [] {
      assert [x] + ops == [x];
      NoneWaits(q, t, x, k, q1);
    } else {
      WaitsForIdInOrder(q1, k, ops);
      WaitingIsAwaitBoth(q, t, x, k, ops, q1, EditorDelivery.ReceiveAll(q1, ops));
    }
  }

  lemma NoneWaits(q: State, t: u32, x: IdeAdd, k: Ident, q1: State)
    requires q.counter < MAX_U32 && AwaitOne(q, t, x, k, q1) && x.tag !in q.ids.tags && t !in q1.ids.tags
    requires k !in q.ide.backlog
    ensures AwaitBoth(q, t, x, k, [], q1)
  {
    assert q1.ide.backlog - {k} == q1.ide.backlog;
  }

  lemma ChainedRest(q: State, t: u32, x: IdeAdd, ops: seq<IdeAdd>, q1: State)
    requires q.counter < MAX_U32 && Chained(q, t, x, ops)
    requires q1.ids.tags == q.ids.tags[x.tag := EditorDelivery.Handed(q, 0)]
    requires q1.ide.tagBacklog - {t} == q.ide.tagBacklog
    ensures AllForId(q1, EditorDelivery.Handed(q, 0), ops) && t !in q1.ids.tags && x.tag !in q.ids.tags
  {
    var all := [x] + ops;
    assert all[0] == x && forall i :: 0 <= i < |ops| ==> all[i + 1] == ops[i];
    assert [x][0] in [x];
    forall op | op in ops ensures op.tag !in q1.ids.tags && op.tag !in q1.ide.tagBacklog && op in all {
      var i :| 0 <= i < |ops| && ops[i] == op;
      assert all[i + 1].tag != all[0].tag && all[i + 1] in all;
      assert op.tag in q1.ide.tagBacklog ==> op.tag in q1.ide.tagBacklog - {t};
    }
    TailIsDistinct(q, x, ops);
  }

  lemma TailIsDistinct(q: State, x: IdeAdd, ops: seq<IdeAdd>)
    requires NewTags(q, [x] + ops)
    ensures forall i, j :: 0 <= i < j < |ops| ==> ops[i].tag != ops[j].tag
  {
    var all := [x] + ops;
    forall i, j | 0 <= i < j < |ops| ensures ops[i].tag != ops[j].tag {
      assert all[i + 1] == ops[i] && all[j + 1] == ops[j];
    }
  }

  lemma WaitingIsAwaitBoth(q: State, t: u32, x: IdeAdd, k: Ident, ops: seq<IdeAdd>, q1: State, q2: State)
    requires q.counter + 1 + |ops| <= MAX_U32 && AwaitOne(q, t, x, k, q1)
    requires k !in q.ide.backlog && WaitingForId(q1, k, ops, q2) && x.tag !in q.ids.tags
    requires AllForId(q1, k, ops) && t !in q1.ids.tags && forall op :: op in ops ==> op.tag != t
    ensures AwaitBoth(q, t, x, k, ops, q2)
  {
    NumberedFields(q1, ops, q2);
    assert Awaiting(q, t, [x], q2) by { NothingToldYet(q1, ops); }
    assert Waiting(q2.ide.backlog, k) == ops && q2.ide.backlog - {k} == q.ide.backlog by {
      IdReleased(q1.ide.backlog, k, ops);
    }
    LaterTags(q, x, k, ops, q1);
    assert t !in q2.ids.tags by { TagsInOrder(q1, ops); }
  }

  lemma IdReleased(backlog: map<Ident, seq<IdeAdd>>, k: Ident, ops: seq<IdeAdd>)
    requires k !in backlog
    ensures var waiting := backlog[k := Waiting(backlog, k) + ops];
      waiting - {k} == backlog && Waiting(waiting, k) == ops
  {
    assert [] + ops == ops;
  }

  lemma LaterTags(q: State, x: IdeAdd, k: Ident, ops: seq<IdeAdd>, q1: State)
    requires q.counter + 1 + |ops| <= MAX_U32 && q1.counter == q.counter + 1 && q1.ids.peer == q.ids.peer
    requires q1.ids.tags == q.ids.tags[x.tag := k] && x.tag !in q.ids.tags && NewTags(q1, ops)
    ensures TagsOfBoth(q.ids.tags, x, k, ops, Handouts(q, 1, |ops|), TagsOf(q1, ops))
  {
    TagsInOrder(q1, ops);
    forall i | 0 <= i < |ops| ensures Handouts(q, 1, |ops|)[i] == EditorDelivery.Handed(q1, i) {}
  }

  /** The insert `x`, alone in the worklist, lands under `k'` and lets `ops` go. */
  lemma LetsGoNext(q: State, x: IdeAdd, k: Ident, k': Ident, ops: seq<IdeAdd>)
    requires Sound(q.doc) && q.ide.work == [x] && x.tag in q.ids.tags && q.ids.tags[x.tag] == k
    requires Names(q.ids.tags, x, k') && k' in q.doc.chars && k !in q.doc.chars && Waiting(q.ide.backlog, k) == ops
    ensures var q1, crdt := IdeLand(WithWork(q, []), x), Crdt(k, Relation(x.value, k', false));
      DrainIde(q) == DrainIde(q1) && q1.doc == Step(q.doc, Insert(crdt)) && q1.ids == q.ids &&
      q1.doc.chars.Keys == q.doc.chars.Keys + {k} && Outgoing(q1.log) == Outgoing(q.log) + [Insert(crdt)] &&
      q1.ide == IdeSide(q.ide.backlog - {k}, q.ide.tagBacklog, ops)
  {
    var q0 := WithWork(q, []);
    GenerationByGeneration(q);
    ItemsFirst(q0, x, []);
    assert [x] + [] == [x] && [] + ops == ops;
    LandsAtOnce(q0, x, k');
  }

  /** Two that land one after the other, and what follows. */
  lemma HappenedTwice(q: State, a: Crdt, q1: State, b: Crdt, q2: State, news: seq<Op>, q': State)
    requires Sound(q.doc) && Sound(q1.doc) && Sound(q2.doc) && Happened(q2, news, q') && q'.ide == q.ide
    requires q1.doc == Step(q.doc, Insert(a)) && Outgoing(q1.log) == Outgoing(q.log) + [Insert(a)]
    requires q2.doc == Step(q1.doc, Insert(b)) && Outgoing(q2.log) == Outgoing(q1.log) + [Insert(b)]
    ensures Happened(q, [Insert(a), Insert(b)] + news, q')
  {
    var q1' := q1.(ide := q.ide);
    HappenedFirst(q1', b, news, q2, q');
    HappenedFirst(q, a, [Insert(b)] + news, q1', q');
    assert [Insert(a)] + ([Insert(b)] + news) == [Insert(a), Insert(b)] + news;
  }

  /** Editor inserts that hang from an insert `x` which itself waits for a tag: once the insert with that
      tag is received, it lands, then `x`, then they do, in the order in which they were received. */
  lemma EarlyByIdIsInOrder(q: State, x: IdeAdd, ops: seq<IdeAdd>, add: IdeAdd, p: Ident)
    requires Sound(q.doc) && Within(q) && q.ide.work == [] && q.counter + |ops| + 2 <= MAX_U32
    requires Chained(q, add.tag, x, ops) && Names(q.ids.tags, add, p) && p in q.doc.chars
    ensures var k, k' := EditorDelivery.Handed(q, 0), EditorDelivery.Handed(q, |ops| + 1);
      Happened(q,
        [Insert(Crdt(k', Relation(add.value, p, false))), Insert(Crdt(k, Relation(x.value, k', false)))] +
          Landings(Handouts(q, 1, |ops|), ops, k),
        EditorDelivery.ReceiveAll(q, [x] + ops + [add]))
  {
    var k, k' := EditorDelivery.Handed(q, 0), EditorDelivery.Handed(q, |ops| + 1);
    var whos, q2 := Handouts(q, 1, |ops|), EditorDelivery.ReceiveAll(q, [x] + ops);
    HandoutsSpare(q, |ops|);
    assert AwaitBoth(q, add.tag, x, k, ops, q2) by { ChainedWaits(q, add.tag, x, k, ops); }
    assert EditorDelivery.ReceiveAll(q, [x] + ops + [add]) == AddIde(q2, add) by { ReceiveSnoc(q, [x] + ops, add); }
    assert [x][0] in [x];
    BothArrive(q, k, k', x, ops, whos, add, p, q2);
  }

  lemma HandoutsSpare(q: State, n: nat)
    requires Within(q) && q.counter + n + 2 <= MAX_U32
    ensures var k, k', whos := EditorDelivery.Handed(q, 0), EditorDelivery.Handed(q, n + 1), Handouts(q, 1, n);
      Fresh(q, k) && Fresh(q, k') && k != k' && AllFresh(q, whos) && k !in whos && k' !in whos
  {
    HandedIsFresh(q, 0);
    HandedIsFresh(q, n + 1);
    HandoutsAreFresh(q, 1, n);
  }

  lemma BothArrive(q: State, k: Ident, k': Ident, x: IdeAdd, ops: seq<IdeAdd>, whos: seq<Ident>, add: IdeAdd, p: Ident,
                   q2: State)
    requires Sound(q.doc) && Sound(q2.doc) && q.ide.work == [] && q.counter + |ops| + 2 <= MAX_U32
    requires x.parent == ByTag(add.tag) && x.tag != add.tag && Names(q.ids.tags, add, p) && p in q.doc.chars
    requires forall op :: op in ops ==> op.tag != add.tag && (op.parent == ByTag(x.tag) || op.parent == ById(k))
    requires whos == Handouts(q, 1, |ops|) && AllFresh(q, whos)
    requires k' == EditorDelivery.Handed(q, |ops| + 1) && Fresh(q, k) && Fresh(q, k')
    requires k != k' && k !in whos && k' !in whos && AwaitBoth(q, add.tag, x, k, ops, q2)
    ensures Happened(q,
      [Insert(Crdt(k', Relation(add.value, p, false))), Insert(Crdt(k, Relation(x.value, k', false)))] +
        Landings(whos, ops, k),
      AddIde(q2, add))
  {
    var q3 := IdeLand(Receive(q2, add), add);
    OuterArrives(q, k, k', x, ops, add, p, q2);
    InnerArrives(q, k, k', x, ops, whos, add, q2.ids.tags, q3);
    var q4 := IdeLand(WithWork(q3, []), x);
    TwoThenMore(q, Crdt(k', Relation(add.value, p, false)), q3, Crdt(k, Relation(x.value, k', false)), q4,
      whos, ops, k);
  }

  lemma TwoThenMore(q: State, a: Crdt, q3: State, b: Crdt, q4: State, whos: seq<Ident>, ops: seq<IdeAdd>, k: Ident)
    requires Sound(q.doc) && Sound(q3.doc) && Sound(q4.doc) && q.ide.work == []
    requires q3.doc == Step(q.doc, Insert(a)) && Outgoing(q3.log) == Outgoing(q.log) + [Insert(a)]
    requires q4.doc == Step(q3.doc, Insert(b)) && Outgoing(q4.log) == Outgoing(q3.log) + [Insert(b)]
    requires ReadyAs(q4, whos, ops, k) && q4.ide == q.ide.(work := ops)
    ensures Happened(q, [Insert(a), Insert(b)] + Landings(whos, ops, k), DrainIde(q4))
  {
    ReadyByIndex(q4, whos, ops, k);
    ReadyDrain(q4, ops, k);
    assert Planted(q4, ops, k) == Landings(whos, ops, k);
    HappenedTwice(q, a, q3, b, WithWork(q4, []), Landings(whos, ops, k), DrainIde(q4));
  }

  ghost predicate AllFresh(q: State, whos: seq<Ident>) {
    Distinct(whos) && forall i :: 0 <= i < |whos| ==> Fresh(q, whos[i])
  }

  lemma OuterArrives(q: State, k: Ident, k': Ident, x: IdeAdd, ops: seq<IdeAdd>, add: IdeAdd, p: Ident, q2: State)
    requires Sound(q.doc) && Sound(q2.doc) && q.counter + |ops| + 2 <= MAX_U32
    requires Names(q.ids.tags, add, p) && p in q.doc.chars && AwaitBoth(q, add.tag, x, k, ops, q2)
    requires k' == EditorDelivery.Handed(q, |ops| + 1) && Fresh(q, k') && k != k'
    ensures var q3 := IdeLand(Receive(q2, add), add);
      AddIde(q2, add) == DrainIde(q3) && Awaited(q, k', add, p, [x], q3) && q3.ide.backlog == q2.ide.backlog &&
      q3.ids.tags == q2.ids.tags[add.tag := k']
  {
    assert k' == EditorDelivery.Handed(q2, 0);
    assert k' in q2.ide.backlog ==> k' in q2.ide.backlog - {k};
    AwaitedArrives(q, k', add, p, [x], q2);
  }

  lemma InnerArrives(q: State, k: Ident, k': Ident, x: IdeAdd, ops: seq<IdeAdd>, whos: seq<Ident>, add: IdeAdd,
                     tags: map<u32, Ident>, q3: State)
    requires Sound(q3.doc) && q3.ide.work == [x] && q3.ide.tagBacklog == q.ide.tagBacklog
    requires q3.doc.chars.Keys == q.doc.chars.Keys + {k'} && q3.ids.tags == tags[add.tag := k']
    requires Waiting(q3.ide.backlog, k) == ops && q3.ide.backlog - {k} == q.ide.backlog && |whos| == |ops|
    requires TagsOfBoth(q.ids.tags, x, k, ops, whos, tags) && x.parent == ByTag(add.tag) && x.tag != add.tag
    requires forall op :: op in ops ==> op.tag != add.tag && (op.parent == ByTag(x.tag) || op.parent == ById(k))
    requires AllFresh(q, whos) && Fresh(q, k) && k != k' && k !in whos && k' !in whos
    ensures var q4, crdt := IdeLand(WithWork(q3, []), x), Crdt(k, Relation(x.value, k', false));
      DrainIde(q3) == DrainIde(q4) && q4.doc == Step(q3.doc, Insert(crdt)) && ReadyAs(q4, whos, ops, k) &&
      Outgoing(q4.log) == Outgoing(q3.log) + [Insert(crdt)] && q4.ide == q.ide.(work := ops)
  {
    LetsGoNext(q3, x, k, k', ops);
    ReadyInner(q, k, k', x, ops, whos, add, tags, IdeLand(WithWork(q3, []), x));
  }

  lemma ReadyInner(q: State, k: Ident, k': Ident, x: IdeAdd, ops: seq<IdeAdd>, whos: seq<Ident>, add: IdeAdd,
                   tags: map<u32, Ident>, q4: State)
    requires q4.ids.tags == tags[add.tag := k'] && q4.doc.chars.Keys == q.doc.chars.Keys + {k'} + {k}
    requires q4.ide.backlog == q.ide.backlog && |whos| == |ops|
    requires TagsOfBoth(q.ids.tags, x, k, ops, whos, tags) && x.tag != add.tag
    requires forall op :: op in ops ==> op.tag != add.tag && (op.parent == ByTag(x.tag) || op.parent == ById(k))
    requires AllFresh(q, whos) && k !in whos && k' !in whos
    ensures ReadyAs(q4, whos, ops, k)
  {
    forall i | 0 <= i < |ops| ensures Names(q4.ids.tags, ops[i], k) && ops[i].tag in tags && ops[i].tag != add.tag {
      assert ops[i] in ops;
    }
    forall i | 0 <= i < |whos| ensures Fresh(q4, whos[i]) { assert Fresh(q, whos[i]) && whos[i] in whos; }
  }
}
