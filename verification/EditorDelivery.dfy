/** Editor adds in any order: each is confirmed on receipt, waits in exactly one place, and lands
    under its declared parent once the parent is there. */
module EditorDelivery {
  import opened Types
  import opened CharTree
  import opened Lists
  import opened Document
  import opened Shape
  import opened Queue
  import opened QueueSafety
  import opened Commute
  import opened Protocol

  /** Which identity each tag gets, and the tree that the declared parents describe. */
  datatype Plan = Plan(tags: map<u32, Ident>, goal: Chars)

  function ParentOf(tags: map<u32, Ident>, op: IdeAdd): Ident {
    match op.parent
    case ById(who) => who
    case ByTag(tag) => if tag in tags then tags[tag] else ROOT
  }

  function Declared(p: Plan, op: IdeAdd): Relation {
    Relation(op.value, ParentOf(p.tags, op), false)
  }

  function Handed(q: State, i: nat): Ident
    requires q.counter + 1 + i <= MAX_U32
  {
    Ident(q.counter + 1 + i, q.ids.peer)
  }

  /** Tags are new and used once, ids are handed out in the order of receipt, and an identity is
      only named once it has been handed out. */
  ghost predicate Numbers(p: Plan, q: State, ops: seq<IdeAdd>) {
    && q.counter + |ops| <= MAX_U32
    && (forall t :: t in p.tags <==> t in q.ids.tags || exists i :: 0 <= i < |ops| && ops[i].tag == t)
    && (forall t :: t in q.ids.tags ==> p.tags[t] == q.ids.tags[t])
    && (forall i :: 0 <= i < |ops| ==>
        ops[i].tag !in q.ids.tags && p.tags[ops[i].tag] == Handed(q, i) && IdeWithin(q.counter + i)(ops[i]))
    && forall i :: 0 <= i < |ops| && ops[i].parent.ByTag? ==> ops[i].parent.tag in p.tags
  }

  /** The declared parents form a tree with what is there already, and every add is anchored in it. */
  ghost predicate Grafts(p: Plan, q: State, ops: seq<IdeAdd>)
    requires Numbers(p, q, ops)
  {
    && Rooted(p.goal) && (forall x :: x in q.doc.chars ==> x in p.goal && p.goal[x] == q.doc.chars[x])
    && (forall x :: x in p.goal ==> x in q.doc.chars || exists i :: 0 <= i < |ops| && x == Handed(q, i))
    && forall i :: 0 <= i < |ops| ==> Planted(p, Handed(q, i), Declared(p, ops[i]))
  }

  /** `who` stands in the goal as declared, anchored. */
  ghost predicate Planted(p: Plan, who: Ident, rel: Relation)
    requires Rooted(p.goal)
  {
    who in p.goal && p.goal[who] == rel && rel.parent in p.goal && Anchored(p.goal, Crdt(who, rel))
  }

  ghost predicate Plans(p: Plan, q: State, ops: seq<IdeAdd>) {
    Numbers(p, q, ops) && Grafts(p, q, ops)
  }

  ghost function ReceiveAll(q: State, ops: seq<IdeAdd>): (q': State)
    requires Sound(q.doc)
    ensures Sound(q'.doc)
    decreases |ops|
  {
    if ops == [] then q else
      var q1 := ReceiveAll(q, ops[..|ops| - 1]);
      if q1.counter < MAX_U32 then AddIde(q1, ops[|ops| - 1]) else q1
  }

  // ----- Where an add is -----

  predicate InTree(p: Plan, chars: Chars, op: IdeAdd) {
    op.tag in p.tags && p.tags[op.tag] in chars
  }

  predicate InTagBacklog(side: IdeSide, op: IdeAdd) {
    op.parent.ByTag? && op in Waiting(side.tagBacklog, op.parent.tag)
  }

  predicate InBacklog(p: Plan, side: IdeSide, op: IdeAdd) {
    op in Waiting(side.backlog, ParentOf(p.tags, op))
  }

  predicate InWork(side: IdeSide, op: IdeAdd) {
    op in side.work
  }

  /** In how many of the tree, the two backlogs and the worklist the add is. */
  function Places(p: Plan, chars: Chars, side: IdeSide, op: IdeAdd): nat {
    (if InTree(p, chars, op) then 1 else 0) + (if InTagBacklog(side, op) then 1 else 0) +
    (if InBacklog(p, side, op) then 1 else 0) + (if InWork(side, op) then 1 else 0)
  }

  ghost predicate TagBacklogOk(tags: map<u32, Ident>, backlog: map<u32, seq<IdeAdd>>, seen: seq<IdeAdd>) {
    && (forall k :: k in backlog ==> k !in tags && backlog[k] != [] && Distinct(backlog[k]))
    && forall k, op :: k in backlog && op in backlog[k] ==> op in seen && op.parent == ByTag(k)
  }

  ghost predicate BacklogOk(p: Plan, tags: map<u32, Ident>, chars: Chars, backlog: map<Ident, seq<IdeAdd>>,
                            seen: seq<IdeAdd>) {
    && (forall k :: k in backlog ==> k !in chars && backlog[k] != [] && Distinct(backlog[k]))
    && forall k, op :: k in backlog && op in backlog[k] ==> Waits(p, tags, seen, op, k)
  }

  /** `op` has been received and hangs from `k`. */
  ghost predicate Waits(p: Plan, tags: map<u32, Ident>, seen: seq<IdeAdd>, op: IdeAdd, k: Ident) {
    op in seen && Resolves(p, tags, op) && ParentOf(p.tags, op) == k
  }

  /** What waits has been received, and waits for something that is missing. */
  ghost predicate ListsOk(p: Plan, tags: map<u32, Ident>, chars: Chars, side: IdeSide, seen: seq<IdeAdd>) {
    && TagBacklogOk(tags, side.tagBacklog, seen) && BacklogOk(p, tags, chars, side.backlog, seen)
    && Distinct(side.work) && (forall op :: op in side.work ==> op in seen)
  }

  predicate Resolves(p: Plan, tags: map<u32, Ident>, op: IdeAdd) {
    op.parent.ByTag? ==> op.parent.tag in tags
  }

  /** The tags handed out so far. */
  ghost predicate TagsSoFar(p: Plan, q: State, ids: Roster, seen: seq<IdeAdd>) {
    && ids.peer == q.ids.peer && (forall t :: t in ids.tags ==> t in p.tags && ids.tags[t] == p.tags[t])
    && forall t :: t in ids.tags <==> t in q.ids.tags || exists i :: 0 <= i < |seen| && seen[i].tag == t
  }

  /** The tree so far is part of the goal. */
  ghost predicate PartOf(p: Plan, chars0: Chars, chars: Chars) {
    chars0.Keys <= chars.Keys <= p.goal.Keys && forall x :: x in chars ==> chars[x] == p.goal[x]
  }

  // ----- The callbacks -----

  function SentBy(e: Event): set<Ident> {
    if e.LocalAdd? then {e.sent.who} else {}
  }

  function Sent(log: seq<Event>): set<Ident> {
    if log == [] then {} else Sent(log[..|log| - 1]) + SentBy(log[|log| - 1])
  }

  /** Broadcasts are of the plan, once each, parents first. */
  predicate Fits(p: Plan, chars0: Chars, log: seq<Event>, e: Event) {
    match e
    case LocalAdd(sent, _) =>
      sent.who in p.goal && sent.relation == p.goal[sent.who] && sent.who !in chars0.Keys + Sent(log) &&
        sent.relation.parent in chars0.Keys + Sent(log)
    case Confirmed(_, _) => true
    case _ => false
  }

  predicate Orderly(p: Plan, chars0: Chars, log: seq<Event>) {
    log == [] || (Orderly(p, chars0, log[..|log| - 1]) && Fits(p, chars0, log[..|log| - 1], log[|log| - 1]))
  }

  lemma LogGrows(p: Plan, chars0: Chars, log: seq<Event>, e: Event)
    ensures Sent(log + [e]) == Sent(log) + SentBy(e)
    ensures Orderly(p, chars0, log + [e]) <==> Orderly(p, chars0, log) && Fits(p, chars0, log, e)
    ensures Confirmations(log + [e]) == Confirmations(log) + if e.Confirmed? then [Confirmation(e.tag, e.who)] else []
  {
    assert (log + [e])[..|log|] == log;
  }

  /** One confirmation for each add, in the order of receipt. */
  function Receipts(q: State, seen: seq<IdeAdd>): (r: seq<Confirmation>)
    requires q.counter + |seen| <= MAX_U32
  {
    if seen == [] then []
    else Receipts(q, seen[..|seen| - 1]) + [Confirmation(seen[|seen| - 1].tag, Handed(q, |seen| - 1))]
  }

  ghost predicate LogOk(p: Plan, q0: State, q: State, seen: seq<IdeAdd>)
    requires q0.counter + |seen| <= MAX_U32
  {
    && q0.log <= q.log && Orderly(p, q0.doc.chars, q.log[|q0.log|..])
    && q.doc.chars.Keys == q0.doc.chars.Keys + Sent(q.log[|q0.log|..])
    && Confirmations(q.log[|q0.log|..]) == Receipts(q0, seen)
  }

  // ----- On the way -----

  /** Every add of `seen` but `hand` is in exactly one place; `hand` is in none. */
  ghost predicate Placed(p: Plan, chars: Chars, side: IdeSide, seen: seq<IdeAdd>, hand: Option<IdeAdd>) {
    forall op :: op in seen ==> Places(p, chars, side, op) == if hand == Some(op) then 0 else 1
  }

  ghost predicate OnTheWay(p: Plan, q0: State, q: State, seen: seq<IdeAdd>, hand: Option<IdeAdd>)
    requires q0.counter + |seen| <= MAX_U32
  {
    && WellFormed(q.doc) && q.anchored && q.counter == q0.counter + |seen|
    && TagsSoFar(p, q0, q.ids, seen) && PartOf(p, q0.doc.chars, q.doc.chars)
    && ListsOk(p, q.ids.tags, q.doc.chars, q.ide, seen) && Placed(p, q.doc.chars, q.ide, seen, hand)
    && LogOk(p, q0, q, seen)
  }

  /** What the plan says about one add, and that no two adds share an identity. */
  ghost predicate Sane(p: Plan, seen: seq<IdeAdd>) {
    && Rooted(p.goal)
    && (forall op :: op in seen ==>
        op.tag in p.tags && Planted(p, p.tags[op.tag], Declared(p, op)) && Resolves(p, p.tags, op))
    && forall a, b :: a in seen && b in seen && a != b ==>
       a.tag in p.tags && b.tag in p.tags && p.tags[a.tag] != p.tags[b.tag]
  }

  lemma PlansAreSane(p: Plan, q: State, ops: seq<IdeAdd>)
    requires Plans(p, q, ops)
    ensures Sane(p, ops)
  {
    forall op | op in ops
      ensures op.tag in p.tags && Planted(p, p.tags[op.tag], Declared(p, op)) && Resolves(p, p.tags, op)
    {
      var i :| 0 <= i < |ops| && ops[i] == op;
      assert Planted(p, Handed(q, i), Declared(p, ops[i]));
    }
    forall a, b | a in ops && b in ops && a != b
      ensures a.tag in p.tags && b.tag in p.tags && p.tags[a.tag] != p.tags[b.tag]
    {
      NumberedApart(p, q, ops, a, b);
    }
  }

  lemma NumberedApart(p: Plan, q: State, ops: seq<IdeAdd>, a: IdeAdd, b: IdeAdd)
    requires Numbers(p, q, ops) && a in ops && b in ops && a != b
    ensures a.tag in p.tags && b.tag in p.tags && p.tags[a.tag] != p.tags[b.tag]
  {
    var i :| 0 <= i < |ops| && ops[i] == a;
    var j :| 0 <= j < |ops| && ops[j] == b;
    assert ops[i].tag in p.tags && ops[j].tag in p.tags;
    assert p.tags[ops[i].tag] == Handed(q, i) && p.tags[ops[j].tag] == Handed(q, j);
    HandedApart(q, i, j);
  }

  lemma HandedApart(q: State, i: nat, j: nat)
    requires q.counter + 1 + i <= MAX_U32 && q.counter + 1 + j <= MAX_U32 && i != j
    ensures Handed(q, i) != Handed(q, j)
  {}

  // ----- One add finds no parent: it waits -----

  lemma PushTagLists(p: Plan, tags: map<u32, Ident>, chars: Chars, side: IdeSide, seen: seq<IdeAdd>, op: IdeAdd)
    requires ListsOk(p, tags, chars, side, seen) && op in seen
    requires op.parent.ByTag? && op.parent.tag !in tags && !InTagBacklog(side, op)
    ensures ListsOk(p, tags, chars, side.(tagBacklog := Push(side.tagBacklog, op.parent.tag, op)), seen)
  {
    var was := Waiting(side.tagBacklog, op.parent.tag);
    assert forall o :: o in was + [op] ==> o in was || o == op;
  }

  lemma PushTag(p: Plan, tags: map<u32, Ident>, chars: Chars, side: IdeSide, seen: seq<IdeAdd>, op: IdeAdd)
    requires ListsOk(p, tags, chars, side, seen) && Placed(p, chars, side, seen, Some(op))
    requires op in seen && op.parent.ByTag? && op.parent.tag !in tags
    ensures var side' := side.(tagBacklog := Push(side.tagBacklog, op.parent.tag, op));
      ListsOk(p, tags, chars, side', seen) && Placed(p, chars, side', seen, None)
  {
    var k := op.parent.tag;
    var was, side' := Waiting(side.tagBacklog, k), side.(tagBacklog := Push(side.tagBacklog, k, op));
    assert Places(p, chars, side, op) == 0;
    PushTagLists(p, tags, chars, side, seen, op);
    assert side'.tagBacklog[k] == was + [op];
    forall o | o in seen ensures Places(p, chars, side', o) == 1 {
      assert InTagBacklog(side', o) <==> InTagBacklog(side, o) || o == op;
    }
  }

  lemma PushIdentityLists(p: Plan, tags: map<u32, Ident>, chars: Chars, side: IdeSide, seen: seq<IdeAdd>, op: IdeAdd)
    requires ListsOk(p, tags, chars, side, seen) && op in seen && Resolves(p, tags, op)
    requires ParentOf(p.tags, op) !in chars && !InBacklog(p, side, op)
    ensures ListsOk(p, tags, chars, side.(backlog := Push(side.backlog, ParentOf(p.tags, op), op)), seen)
  {
    var was := Waiting(side.backlog, ParentOf(p.tags, op));
    assert forall o :: o in was + [op] ==> o in was || o == op;
  }

  lemma PushIdentity(p: Plan, tags: map<u32, Ident>, chars: Chars, side: IdeSide, seen: seq<IdeAdd>, op: IdeAdd)
    requires ListsOk(p, tags, chars, side, seen) && Placed(p, chars, side, seen, Some(op))
    requires op in seen && Resolves(p, tags, op) && ParentOf(p.tags, op) !in chars
    ensures var side' := side.(backlog := Push(side.backlog, ParentOf(p.tags, op), op));
      ListsOk(p, tags, chars, side', seen) && Placed(p, chars, side', seen, None)
  {
    var k := ParentOf(p.tags, op);
    var was, side' := Waiting(side.backlog, k), side.(backlog := Push(side.backlog, k, op));
    assert Places(p, chars, side, op) == 0;
    PushIdentityLists(p, tags, chars, side, seen, op);
    assert side'.backlog[k] == was + [op];
    forall o | o in seen ensures Places(p, chars, side', o) == 1 {
      assert InBacklog(p, side', o) <==> InBacklog(p, side, o) || o == op;
    }
  }

  // ----- One add lands: what waited for it is released -----

  function Released(side: IdeSide, who: Ident): IdeSide {
    side.(backlog := side.backlog - {who}, work := side.work + Waiting(side.backlog, who))
  }

  lemma ReleasedLists(p: Plan, tags: map<u32, Ident>, chars: Chars, side: IdeSide, seen: seq<IdeAdd>,
                      who: Ident, rel: Relation, hand: Option<IdeAdd>)
    requires ListsOk(p, tags, chars, side, seen) && Placed(p, chars, side, seen, hand)
    ensures ListsOk(p, tags, chars[who := rel], Released(side, who), seen)
  {
    var freed, work := Waiting(side.backlog, who), side.work;
    forall i, j | 0 <= i < |work| && 0 <= j < |freed| ensures work[i] != freed[j] {
      var o := work[i];
      assert o in seen && Places(p, chars, side, o) <= 1;
      assert freed[j] in side.backlog[who] && ParentOf(p.tags, freed[j]) == who;
    }
    assert Distinct(work + freed);
    assert forall o :: o in work + freed ==> o in work || o in side.backlog[who];
  }

  lemma ReleasedPlaces(p: Plan, tags: map<u32, Ident>, chars: Chars, side: IdeSide, seen: seq<IdeAdd>,
                       op: IdeAdd, rel: Relation, o: IdeAdd)
    requires ListsOk(p, tags, chars, side, seen) && Placed(p, chars, side, seen, Some(op))
    requires op in seen && o in seen && op.tag in p.tags && o.tag in p.tags
    requires (o != op ==> p.tags[o.tag] != p.tags[op.tag])
    ensures Places(p, chars[p.tags[op.tag] := rel], Released(side, p.tags[op.tag]), o) == 1
  {
    var who := p.tags[op.tag];
    var side' := Released(side, who);
    assert Places(p, chars, side, op) == 0;
    assert InTree(p, chars[who := rel], o) <==> InTree(p, chars, o) || o == op;
    assert InTagBacklog(side', o) <==> InTagBacklog(side, o);
    if ParentOf(p.tags, o) == who {
      assert InWork(side', o) <==> InWork(side, o) || InBacklog(p, side, o);
      assert !InBacklog(p, side', o);
    } else {
      assert o !in Waiting(side.backlog, who);
      assert InWork(side', o) <==> InWork(side, o);
      assert InBacklog(p, side', o) <==> InBacklog(p, side, o);
    }
  }

  // ----- One add from the worklist -----

  lemma AnchoredOnTheWay(p: Plan, chars0: Chars, chars: Chars, crdt: Crdt)
    requires Rooted(p.goal) && Rooted(chars) && PartOf(p, chars0, chars)
    requires Planted(p, crdt.who, crdt.relation) && crdt.relation.parent in chars
    ensures Anchored(chars, crdt)
  {
    ReachesRootFrame(chars, p.goal, crdt.relation.parent);
  }

  lemma LandLog(p: Plan, q0: State, q: State, seen: seq<IdeAdd>, crdt: Crdt, shown: Crdt, q': State)
    requires q0.counter + |seen| <= MAX_U32 && LogOk(p, q0, q, seen) && q'.log == q.log + [LocalAdd(crdt, shown)]
    requires crdt.who in p.goal && crdt.relation == p.goal[crdt.who] && Lands(q.doc.chars, crdt)
    requires q'.doc.chars.Keys == q.doc.chars.Keys + {crdt.who}
    ensures LogOk(p, q0, q', seen)
  {
    LogGrows(p, q0.doc.chars, q.log[|q0.log|..], LocalAdd(crdt, shown));
    SuffixGrows(q.log, q0.log, LocalAdd(crdt, shown));
  }

  /** What an editor add that lands changes. */
  lemma IdeLandFields(q: State, op: IdeAdd, parent: Ident)
    requires Sound(q.doc) && Resolve(q, op.parent) == Some(parent) && Lands(q.doc.chars, IdeCrdt(q, op, parent))
    ensures var q', crdt := IdeLand(q, op), IdeCrdt(q, op, parent);
      q'.doc == Inserted(q.doc, crdt) && q'.doc.chars == q.doc.chars[crdt.who := crdt.relation] &&
      q'.ide == Released(q.ide, crdt.who) &&
      q'.ids == q.ids && q'.counter == q.counter && q'.anchored == (q.anchored && Anchored(q.doc.chars, crdt)) &&
      q'.log == q.log + [LocalAdd(crdt, Shown(q'.doc, crdt))]
  {}

  ghost predicate Started(p: Plan, q0: State, seen: seq<IdeAdd>) {
    Sane(p, seen) && q0.counter + |seen| <= MAX_U32
  }

  lemma HandResolves(p: Plan, q0: State, q: State, seen: seq<IdeAdd>, op: IdeAdd)
    requires Started(p, q0, seen) && OnTheWay(p, q0, q, seen, Some(op)) && op in seen
    ensures op.tag in p.tags && Given(q, op) == p.tags[op.tag] && Given(q, op) !in q.doc.chars
    ensures Resolve(q, op.parent) == if Resolves(p, q.ids.tags, op) then Some(ParentOf(p.tags, op)) else None
  {
    var i :| 0 <= i < |seen| && seen[i] == op;
    assert seen[i].tag in q.ids.tags;
    assert Places(p, q.doc.chars, q.ide, op) == 0;
  }

  lemma LandPlaces(p: Plan, tags: map<u32, Ident>, chars: Chars, side: IdeSide, seen: seq<IdeAdd>, op: IdeAdd,
                   crdt: Crdt)
    requires Sane(p, seen) && ListsOk(p, tags, chars, side, seen) && Placed(p, chars, side, seen, Some(op))
    requires op in seen && op.tag in p.tags && crdt.who == p.tags[op.tag]
    ensures ListsOk(p, tags, chars[crdt.who := crdt.relation], Released(side, crdt.who), seen)
    ensures Placed(p, chars[crdt.who := crdt.relation], Released(side, crdt.who), seen, None)
  {
    ReleasedLists(p, tags, chars, side, seen, crdt.who, crdt.relation, Some(op));
    forall o | o in seen ensures Places(p, chars[crdt.who := crdt.relation], Released(side, crdt.who), o) == 1 {
      ReleasedPlaces(p, tags, chars, side, seen, op, crdt.relation, o);
    }
  }

  lemma LandPartOf(p: Plan, chars0: Chars, chars: Chars, crdt: Crdt)
    requires Rooted(p.goal) && PartOf(p, chars0, chars) && Planted(p, crdt.who, crdt.relation)
    ensures PartOf(p, chars0, chars[crdt.who := crdt.relation]) && crdt.who in p.goal
    ensures crdt.relation == p.goal[crdt.who]
  {}

  lemma LandOnTheWay(p: Plan, q0: State, q: State, seen: seq<IdeAdd>, op: IdeAdd)
    requires Started(p, q0, seen) && OnTheWay(p, q0, q, seen, Some(op)) && op in seen
    requires Resolves(p, q.ids.tags, op) && ParentOf(p.tags, op) in q.doc.chars
    ensures OnTheWay(p, q0, IdeLand(q, op), seen, None)
  {
    HandResolves(p, q0, q, seen, op);
    var crdt := Crdt(p.tags[op.tag], Declared(p, op));
    IdeLandFields(q, op, ParentOf(p.tags, op));
    LandDoc(p, q0.doc.chars, q.doc, crdt);
    LandPlaces(p, q.ids.tags, q.doc.chars, q.ide, seen, op, crdt);
    LandPartOf(p, q0.doc.chars, q.doc.chars, crdt);
    LandLog(p, q0, q, seen, crdt, Shown(Inserted(q.doc, crdt), crdt), IdeLand(q, op));
  }

  lemma LandDoc(p: Plan, chars0: Chars, d: Doc, crdt: Crdt)
    requires Rooted(p.goal) && WellFormed(d) && PartOf(p, chars0, d.chars)
    requires Planted(p, crdt.who, crdt.relation) && Lands(d.chars, crdt)
    ensures Anchored(d.chars, crdt) && WellFormed(Inserted(d, crdt))
  {
    AnchoredOnTheWay(p, chars0, d.chars, crdt);
    AnchoredAddKeepsWellFormed(d, crdt);
  }

  lemma IdeLandOnTheWay(p: Plan, q0: State, q: State, seen: seq<IdeAdd>, op: IdeAdd)
    requires Started(p, q0, seen) && OnTheWay(p, q0, q, seen, Some(op)) && op in seen
    ensures OnTheWay(p, q0, IdeLand(q, op), seen, None)
  {
    HandResolves(p, q0, q, seen, op);
    if !Resolves(p, q.ids.tags, op) {
      PushTag(p, q.ids.tags, q.doc.chars, q.ide, seen, op);
    } else if ParentOf(p.tags, op) !in q.doc.chars {
      PushIdentity(p, q.ids.tags, q.doc.chars, q.ide, seen, op);
    } else {
      LandOnTheWay(p, q0, q, seen, op);
    }
  }

  lemma PopPlaces(p: Plan, tags: map<u32, Ident>, chars: Chars, side: IdeSide, seen: seq<IdeAdd>)
    requires ListsOk(p, tags, chars, side, seen) && Placed(p, chars, side, seen, None) && side.work != []
    ensures var side' := side.(work := side.work[1..]);
      ListsOk(p, tags, chars, side', seen) && Placed(p, chars, side', seen, Some(side.work[0])) && side.work[0] in seen
  {
    var op, side' := side.work[0], side.(work := side.work[1..]);
    assert op in side.work && side.work == [op] + side.work[1..];
    assert op !in side.work[1..];
    forall o | o in seen ensures Places(p, chars, side', o) == if o == op then 0 else 1 {
      assert Places(p, chars, side, o) == 1;
      assert InWork(side', o) <==> InWork(side, o) && o != op;
    }
  }

  lemma {:induction false} DrainOnTheWay(p: Plan, q0: State, q: State, seen: seq<IdeAdd>)
    requires Sound(q.doc) && Started(p, q0, seen) && OnTheWay(p, q0, q, seen, None)
    ensures OnTheWay(p, q0, DrainIde(q), seen, None)
    decreases IdePending(q), |q.ide.work|
  {
    if q.ide.work != [] {
      PopPlaces(p, q.ids.tags, q.doc.chars, q.ide, seen);
      var op, q1 := q.ide.work[0], q.(ide := q.ide.(work := q.ide.work[1..]));
      assert OnTheWay(p, q0, q1, seen, Some(op));
      IdeLandOnTheWay(p, q0, q1, seen, op);
      DrainOnTheWay(p, q0, PopIde(q), seen);
    }
  }

  // ----- One add is received -----

  function Freed(side: IdeSide, tag: u32): IdeSide {
    side.(tagBacklog := side.tagBacklog - {tag}, work := side.work + Waiting(side.tagBacklog, tag))
  }

  lemma FreedLists(p: Plan, tags: map<u32, Ident>, chars: Chars, side: IdeSide, seen: seq<IdeAdd>, op: IdeAdd,
                   who: Ident)
    requires ListsOk(p, tags, chars, side, seen) && side.work == []
    ensures ListsOk(p, tags[op.tag := who], chars, Freed(side, op.tag), seen + [op])
  {
    assert Freed(side, op.tag).work == Waiting(side.tagBacklog, op.tag);
    FreedTags(tags, side.tagBacklog, seen, op, who);
    MoreResolves(p, tags, chars, side.backlog, seen, op, who);
  }

  lemma FreedTags(tags: map<u32, Ident>, backlog: map<u32, seq<IdeAdd>>, seen: seq<IdeAdd>, op: IdeAdd, who: Ident)
    requires TagBacklogOk(tags, backlog, seen)
    ensures TagBacklogOk(tags[op.tag := who], backlog - {op.tag}, seen + [op])
    ensures Distinct(Waiting(backlog, op.tag)) && forall o :: o in Waiting(backlog, op.tag) ==> o in seen + [op]
  {}

  lemma MoreResolves(p: Plan, tags: map<u32, Ident>, chars: Chars, backlog: map<Ident, seq<IdeAdd>>, seen: seq<IdeAdd>,
                     op: IdeAdd, who: Ident)
    requires BacklogOk(p, tags, chars, backlog, seen)
    ensures BacklogOk(p, tags[op.tag := who], chars, backlog, seen + [op])
  {
    forall k, o | k in backlog && o in backlog[k] ensures Waits(p, tags[op.tag := who], seen + [op], o, k) {
      assert Waits(p, tags, seen, o, k);
    }
  }

  lemma FreedPlaces(p: Plan, tags: map<u32, Ident>, chars: Chars, side: IdeSide, seen: seq<IdeAdd>, op: IdeAdd)
    requires ListsOk(p, tags, chars, side, seen) && Placed(p, chars, side, seen, None) && side.work == []
    requires op !in seen && op.tag in p.tags && p.tags[op.tag] !in chars
    ensures Placed(p, chars, Freed(side, op.tag), seen + [op], Some(op))
  {
    assert Freed(side, op.tag).work == Waiting(side.tagBacklog, op.tag);
    NewIsNowhere(p, tags, chars, side, seen, op);
    forall o | o in seen ensures Places(p, chars, Freed(side, op.tag), o) == 1 {
      assert Places(p, chars, side, o) == 1;
      FreedMoves(tags, side, seen, op.tag, o);
    }
  }

  lemma NewIsNowhere(p: Plan, tags: map<u32, Ident>, chars: Chars, side: IdeSide, seen: seq<IdeAdd>, op: IdeAdd)
    requires ListsOk(p, tags, chars, side, seen) && side.work == []
    requires op !in seen && op.tag in p.tags && p.tags[op.tag] !in chars
    ensures Places(p, chars, Freed(side, op.tag), op) == 0
  {
    assert op !in Waiting(side.tagBacklog, op.tag);
    FreedMoves(tags, side, seen, op.tag, op);
    assert !InTagBacklog(side, op) && !InBacklog(p, side, op);
  }

  /** What waited for a tag moves to the worklist; nothing else moves. */
  lemma FreedMoves(tags: map<u32, Ident>, side: IdeSide, seen: seq<IdeAdd>, tag: u32, o: IdeAdd)
    requires TagBacklogOk(tags, side.tagBacklog, seen) && side.work == []
    ensures InWork(Freed(side, tag), o) <==> InTagBacklog(side, o) && o.parent == ByTag(tag)
    ensures InTagBacklog(Freed(side, tag), o) <==> InTagBacklog(side, o) && o.parent != ByTag(tag)
  {
    var backlog := side.tagBacklog;
    assert Freed(side, tag).work == Waiting(backlog, tag);
    if o.parent == ByTag(tag) {
      assert Waiting(backlog - {tag}, tag) == [];
    } else {
      assert o !in Waiting(backlog, tag);
      assert o.parent.ByTag? ==> Waiting(backlog - {tag}, o.parent.tag) == Waiting(backlog, o.parent.tag);
    }
  }

  lemma ReceiptsGrow(q: State, seen: seq<IdeAdd>, op: IdeAdd)
    requires q.counter + |seen| + 1 <= MAX_U32
    ensures Receipts(q, seen + [op]) == Receipts(q, seen) + [Confirmation(op.tag, Handed(q, |seen|))]
  {
    assert (seen + [op])[..|seen|] == seen;
  }

  lemma ReceiveLog(p: Plan, q0: State, q: State, seen: seq<IdeAdd>, op: IdeAdd)
    requires q0.counter + |seen| + 1 <= MAX_U32 && LogOk(p, q0, q, seen)
    requires q.counter == q0.counter + |seen| && q.ids.peer == q0.ids.peer
    ensures LogOk(p, q0, Receive(q, op), seen + [op])
  {
    var e := Confirmed(op.tag, Handed(q0, |seen|));
    LogGrows(p, q0.doc.chars, q.log[|q0.log|..], e);
    SuffixGrows(q.log, q0.log, e);
    ReceiptsGrow(q0, seen, op);
  }

  lemma ReceiveTags(p: Plan, q0: State, ids: Roster, seen: seq<IdeAdd>, op: IdeAdd)
    requires TagsSoFar(p, q0, ids, seen) && op.tag in p.tags
    ensures TagsSoFar(p, q0, ids.(tags := ids.tags[op.tag := p.tags[op.tag]]), seen + [op])
  {
    forall t
      ensures t in ids.tags[op.tag := p.tags[op.tag]] <==>
        t in q0.ids.tags || exists i :: 0 <= i < |seen + [op]| && (seen + [op])[i].tag == t
    {
      if t == op.tag { assert (seen + [op])[|seen|].tag == t; }
      if i :| 0 <= i < |seen| && seen[i].tag == t { assert (seen + [op])[i].tag == t; }
    }
  }

  /** `op` is the next to be received. */
  ghost predicate IsNext(p: Plan, q0: State, seen: seq<IdeAdd>, op: IdeAdd) {
    && Started(p, q0, seen + [op]) && op !in seen && q0.counter + |seen| < MAX_U32
    && op.tag in p.tags && p.tags[op.tag] == Handed(q0, |seen|) && IdeWithin(q0.counter + |seen|)(op)
  }

  lemma ReceiveOnTheWay(p: Plan, q0: State, q: State, seen: seq<IdeAdd>, op: IdeAdd)
    requires IsNext(p, q0, seen, op) && OnTheWay(p, q0, q, seen, None) && Within(q) && q.ide.work == []
    ensures OnTheWay(p, q0, Receive(q, op), seen + [op], Some(op))
  {
    assert p.tags[op.tag] !in q.doc.chars;
    ReceiveFields(q, op, p.tags[op.tag]);
    FreedLists(p, q.ids.tags, q.doc.chars, q.ide, seen, op, p.tags[op.tag]);
    FreedPlaces(p, q.ids.tags, q.doc.chars, q.ide, seen, op);
    ReceiveLog(p, q0, q, seen, op);
    ReceiveTags(p, q0, q.ids, seen, op);
  }

  lemma ReceiveFields(q: State, op: IdeAdd, who: Ident)
    requires q.counter < MAX_U32 && who == Ident(q.counter + 1, q.ids.peer)
    ensures var q' := Receive(q, op);
      q'.ide == Freed(q.ide, op.tag) && q'.ids == q.ids.(tags := q.ids.tags[op.tag := who]) && q'.doc == q.doc &&
      q'.counter == q.counter + 1 && q'.anchored == q.anchored
  {}

  lemma AddWithin(q: State, op: IdeAdd)
    requires Sound(q.doc) && Within(q) && q.counter < MAX_U32 && IdeWithin(q.counter)(op)
    ensures Within(AddIde(q, op)) && AddIde(q, op) == DrainIde(IdeLand(Receive(q, op), op))
  {
    var q1 := Receive(q, op);
    ReceiveWithin(q, op);
    IdeFirstIsLand(q1, op);
    assert IdeWithin(q1.counter)(op);
    IdeLandWithin(q1, op);
    DrainIdeWithin(IdeLand(q1, op));
  }

  lemma AddOnTheWay(p: Plan, q0: State, q: State, seen: seq<IdeAdd>, op: IdeAdd)
    requires IsNext(p, q0, seen, op) && OnTheWay(p, q0, q, seen, None) && Within(q) && q.ide.work == []
    ensures Sound(q.doc) && OnTheWay(p, q0, AddIde(q, op), seen + [op], None)
    ensures Within(AddIde(q, op)) && AddIde(q, op).ide.work == []
  {
    ReceiveOnTheWay(p, q0, q, seen, op);
    AddWithin(q, op);
    IdeLandOnTheWay(p, q0, Receive(q, op), seen + [op], op);
    DrainOnTheWay(p, q0, IdeLand(Receive(q, op), op), seen + [op]);
  }

  // ----- Every order -----

  /** A queue with nothing waiting for the editor. */
  ghost predicate Idles(q: State) {
    WellFormed(q.doc) && q.anchored && Within(q) && q.ide == IdeSide(map[], map[], [])
  }

  lemma SanePrefix(p: Plan, ops: seq<IdeAdd>, seen: seq<IdeAdd>)
    requires Sane(p, ops) && seen <= ops
    ensures Sane(p, seen)
  {
    assert forall op :: op in seen ==> op in ops;
  }

  lemma NotSeen(p: Plan, q: State, ops: seq<IdeAdd>, seen: seq<IdeAdd>, op: IdeAdd)
    requires Numbers(p, q, ops) && seen + [op] <= ops
    ensures op !in seen
  {
    assert ops[|seen|] == op;
    forall i | 0 <= i < |seen| ensures seen[i] != op {
      assert ops[i] == seen[i] && p.tags[ops[i].tag] == Handed(q, i) && p.tags[ops[|seen|].tag] == Handed(q, |seen|);
    }
  }

  lemma NextOfPlan(p: Plan, q: State, ops: seq<IdeAdd>, seen: seq<IdeAdd>, op: IdeAdd)
    requires Plans(p, q, ops) && seen + [op] <= ops
    ensures IsNext(p, q, seen, op)
  {
    assert Sane(p, seen + [op]) by {
      PlansAreSane(p, q, ops);
      SanePrefix(p, ops, seen + [op]);
    }
    assert op !in seen by { NotSeen(p, q, ops, seen, op); }
    NextNumber(p, q, ops, seen, op);
  }

  lemma NextNumber(p: Plan, q: State, ops: seq<IdeAdd>, seen: seq<IdeAdd>, op: IdeAdd)
    requires Numbers(p, q, ops) && seen + [op] <= ops
    ensures q.counter + |seen| < MAX_U32 && op.tag in p.tags
    ensures p.tags[op.tag] == Handed(q, |seen|) && IdeWithin(q.counter + |seen|)(op)
  {
    assert ops[|seen|] == op;
    assert ops[|seen|].tag in p.tags;
  }

  lemma ReceiveOne(q: State, seen: seq<IdeAdd>, op: IdeAdd)
    requires Sound(q.doc) && ReceiveAll(q, seen).counter < MAX_U32
    ensures ReceiveAll(q, seen + [op]) == AddIde(ReceiveAll(q, seen), op)
  {
    assert (seen + [op])[..|seen|] == seen;
  }

  /** Every add received so far is confirmed, in order, and in its place; nothing is left to replay. */
  ghost predicate InPlaceSoFar(p: Plan, q: State, seen: seq<IdeAdd>)
    requires Sound(q.doc) && q.counter + |seen| <= MAX_U32
  {
    var q' := ReceiveAll(q, seen);
    OnTheWay(p, q, q', seen, None) && Within(q') && q'.ide.work == []
  }

  lemma NothingReceived(p: Plan, q: State, ops: seq<IdeAdd>)
    requires Idles(q) && Plans(p, q, ops)
    ensures Sound(q.doc) && InPlaceSoFar(p, q, [])
  {
    assert q.log[|q.log|..] == [];
    assert PartOf(p, q.doc.chars, q.doc.chars);
    assert TagsSoFar(p, q, q.ids, []);
  }

  lemma NextInPlace(p: Plan, q: State, ops: seq<IdeAdd>, seen: seq<IdeAdd>, op: IdeAdd)
    requires Sound(q.doc) && Plans(p, q, ops) && seen + [op] <= ops
    requires q.counter + |seen| <= MAX_U32 && InPlaceSoFar(p, q, seen)
    ensures q.counter + |seen + [op]| <= MAX_U32 && InPlaceSoFar(p, q, seen + [op])
  {
    NextOfPlan(p, q, ops, seen, op);
    AddOnTheWay(p, q, ReceiveAll(q, seen), seen, op);
    ReceiveOne(q, seen, op);
  }

  /** After each receipt, every add received so far has been confirmed once, in order of receipt,
      and sits in exactly one of the tree, the tag backlog, the identity backlog and the worklist. */
  lemma {:induction false} AlwaysInOnePlace(p: Plan, q: State, ops: seq<IdeAdd>, seen: seq<IdeAdd>)
    requires Idles(q) && Plans(p, q, ops) && seen <= ops
    ensures Sound(q.doc) && q.counter + |seen| <= MAX_U32 && InPlaceSoFar(p, q, seen)
    decreases |seen|
  {
    if seen == [] {
      NothingReceived(p, q, ops);
    } else {
      var before, op := seen[..|seen| - 1], seen[|seen| - 1];
      LastSeen(ops, seen, before, op);
      AlwaysInOnePlace(p, q, ops, before);
      NextInPlace(p, q, ops, before, op);
    }
  }

  lemma LastSeen(ops: seq<IdeAdd>, seen: seq<IdeAdd>, before: seq<IdeAdd>, op: IdeAdd)
    requires seen != [] && seen <= ops && before == seen[..|seen| - 1] && op == seen[|seen| - 1]
    ensures before + [op] == seen && before <= ops
  {}

  /** With its tag known and its parent in the tree, an add cannot be waiting. */
  lemma CannotWait(p: Plan, tags: map<u32, Ident>, chars: Chars, side: IdeSide, seen: seq<IdeAdd>, op: IdeAdd)
    requires ListsOk(p, tags, chars, side, seen) && side.work == [] && Places(p, chars, side, op) == 1
    requires Resolves(p, tags, op) && ParentOf(p.tags, op) in chars
    ensures InTree(p, chars, op)
  {}

  lemma {:induction false} AllLand(p: Plan, q0: State, q: State, ops: seq<IdeAdd>, x: Ident)
    requires Plans(p, q0, ops) && ListsOk(p, q.ids.tags, q.doc.chars, q.ide, ops)
    requires Placed(p, q.doc.chars, q.ide, ops, None)
    requires q.ids.tags == p.tags && q0.doc.chars.Keys <= q.doc.chars.Keys && q.ide.work == [] && x in p.goal
    ensures x in q.doc.chars
    decreases Ranks(p.goal)[x]
  {
    if x !in q0.doc.chars && x != ROOT {
      var i :| 0 <= i < |ops| && x == Handed(q0, i);
      var op := ops[i];
      assert Planted(p, x, Declared(p, op)) && p.tags[op.tag] == x && op in ops;
      AllLand(p, q0, q, ops, p.goal[x].parent);
      CannotWait(p, q.ids.tags, q.doc.chars, q.ide, ops, op);
    }
  }

  lemma NothingWaits(p: Plan, tags: map<u32, Ident>, chars: Chars, side: IdeSide, ops: seq<IdeAdd>)
    requires Sane(p, ops) && ListsOk(p, tags, chars, side, ops) && side.work == []
    requires chars.Keys == p.goal.Keys && forall t :: t in p.tags ==> t in tags
    ensures side == IdeSide(map[], map[], [])
  {
    forall k ensures k !in side.tagBacklog { TagFree(p, tags, side.tagBacklog, ops, k); }
    forall k ensures k !in side.backlog { IdentityFree(p, tags, chars, side.backlog, ops, k); }
  }

  lemma FirstByTag(tags: map<u32, Ident>, backlog: map<u32, seq<IdeAdd>>, ops: seq<IdeAdd>, k: u32) returns (op: IdeAdd)
    requires TagBacklogOk(tags, backlog, ops) && k in backlog
    ensures op in ops && op.parent == ByTag(k) && k !in tags
  {
    op := backlog[k][0];
    assert op in backlog[k];
  }

  lemma TagFree(p: Plan, tags: map<u32, Ident>, backlog: map<u32, seq<IdeAdd>>, ops: seq<IdeAdd>, k: u32)
    requires Sane(p, ops) && TagBacklogOk(tags, backlog, ops) && forall t :: t in p.tags ==> t in tags
    ensures k !in backlog
  {
    if k in backlog {
      var op := FirstByTag(tags, backlog, ops, k);
      assert false;
    }
  }

  lemma FirstByIdentity(p: Plan, tags: map<u32, Ident>, chars: Chars, backlog: map<Ident, seq<IdeAdd>>,
                        ops: seq<IdeAdd>, k: Ident)
    returns (op: IdeAdd)
    requires BacklogOk(p, tags, chars, backlog, ops) && k in backlog
    ensures op in ops && ParentOf(p.tags, op) == k && k !in chars
  {
    op := backlog[k][0];
    assert op in backlog[k];
  }

  lemma IdentityFree(p: Plan, tags: map<u32, Ident>, chars: Chars, backlog: map<Ident, seq<IdeAdd>>, ops: seq<IdeAdd>,
                     k: Ident)
    requires Sane(p, ops) && BacklogOk(p, tags, chars, backlog, ops) && chars.Keys == p.goal.Keys
    ensures k !in backlog
  {
    if k in backlog {
      var op := FirstByIdentity(p, tags, chars, backlog, ops, k);
      assert false;
    }
  }

  lemma EverythingLands(p: Plan, q0: State, q: State, ops: seq<IdeAdd>)
    requires Plans(p, q0, ops) && OnTheWay(p, q0, q, ops, None) && q.ide.work == []
    ensures q.ide == IdeSide(map[], map[], []) && q.doc.chars == p.goal && q.ids.tags == p.tags
  {
    AllTagged(p, q0, q, ops);
    assert q.doc.chars == p.goal by { forall x | x in p.goal ensures x in q.doc.chars { AllLand(p, q0, q, ops, x); } }
    PlansAreSane(p, q0, ops);
    NothingWaits(p, q.ids.tags, q.doc.chars, q.ide, ops);
  }

  /** Whatever the order of receipt: every tag is confirmed exactly once, on receipt; once all adds
      have arrived nothing waits, the tree is the declared one, and each add has been broadcast
      exactly once, under its declared parent and after it. */
  lemma AnyReceiptOrder(p: Plan, q: State, ops: seq<IdeAdd>)
    requires Idles(q) && Plans(p, q, ops)
    ensures Sound(q.doc)
    ensures var q' := ReceiveAll(q, ops);
      q'.ide == IdeSide(map[], map[], []) && q'.doc.chars == p.goal && q'.ids.tags == p.tags && WellFormed(q'.doc) &&
      q'.anchored &&
      q.log <= q'.log && Confirmations(q'.log[|q.log|..]) == Receipts(q, ops) &&
      Orderly(p, q.doc.chars, q'.log[|q.log|..]) && Sent(q'.log[|q.log|..]) == p.goal.Keys - q.doc.chars.Keys
  {
    AlwaysInOnePlace(p, q, ops, ops);
    var q' := ReceiveAll(q, ops);
    EverythingLands(p, q, q', ops);
    SentIsNew(p, q.doc.chars, q'.log[|q.log|..]);
  }

  lemma AllTagged(p: Plan, q0: State, q: State, ops: seq<IdeAdd>)
    requires Numbers(p, q0, ops) && TagsSoFar(p, q0, q.ids, ops)
    ensures q.ids.tags == p.tags
  {}

  lemma {:induction false} SentIsNew(p: Plan, chars0: Chars, log: seq<Event>)
    requires Orderly(p, chars0, log)
    ensures Sent(log) !! chars0.Keys
  {
    if log != [] { SentIsNew(p, chars0, log[..|log| - 1]); }
  }
}
