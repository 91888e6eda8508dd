/** Every step of the editor, the server and the return channel keeps the protocol's invariant. */
module ProtocolSafety {
  import opened Types
  import opened CharTree
  import opened Lists
  import opened Document
  import opened Shape
  import opened Commute
  import opened Queue
  import opened QueueSafety
  import opened Protocol

  // ----- The server takes one message -----

  lemma ReceiveIdle(q: State, op: IdeAdd)
    requires Idle(q) && q.counter < MAX_U32
    ensures Idle(Receive(q, op))
  {
    var none: map<u32, seq<IdeAdd>> := map[];
    assert none - {op.tag} == none;
  }

  lemma LandIdle(q: State, crdt: Crdt)
    requires Sound(q.doc) && Lands(q.doc.chars, crdt) && Idle(q)
    ensures var q' := Broadcast(ReleaseIde(Land(q, crdt), crdt.who), crdt);
      Idle(q') && q'.counter == q.counter && q'.ids == q.ids && q'.doc == Inserted(q.doc, crdt) &&
        q'.anchored == (q.anchored && Anchored(q.doc.chars, crdt))
  {
    var none: map<Ident, seq<IdeAdd>> := map[];
    assert none - {crdt.who} == none;
  }

  /** An add whose parent is live, to a queue with nothing waiting, is done with at once. */
  lemma ServeAdd(q: State, op: IdeAdd, p: Ident)
    requires Sound(q.doc) && WellFormed(q.doc) && Within(q) && Idle(q) && q.anchored && q.counter < MAX_U32
    requires Resolve(Receive(q, op), op.parent) == Some(p) && p in q.doc.flat && IdeWithin(q.counter)(op)
    ensures var q', who := AddIde(q, op), Ident(q.counter + 1, q.ids.peer);
      var crdt := Crdt(who, Relation(op.value, p, false));
      WellFormed(q'.doc) && Within(q') && Idle(q') && q'.anchored && q'.counter == q.counter + 1 &&
      q'.ids == Roster(q.ids.peer, q.ids.tags[op.tag := who]) &&
      who !in q.doc.chars && q'.doc.chars == q.doc.chars[who := crdt.relation] &&
      q'.doc.flat == InsertAfter(q.doc.flat, p, who) &&
      q'.log == q.log + [Confirmed(op.tag, who), LocalAdd(crdt, crdt)]
  {
    var q1 := Receive(q, op);
    LocalAddLandsBehindParent(q, op, p);
    ReceiveIdle(q, op);
    ReceiveWithin(q, op);
    IdeFirstIsLand(q1, op);
    assert IdeWithin(q1.counter)(op);
    IdeLandWithin(q1, op);
    var crdt := IdeCrdt(q1, op, p);
    LandIdle(q1, crdt);
    AnchoredAddKeepsWellFormed(q.doc, crdt);
  }

  /** The parent that a message in flight names is live and already resolves. */
  lemma ParentResolves(n: Numbering, q: State, parent: Name, value: char, tag: u32)
    requires ServerOk(n, q) && q.counter < MAX_U32
    requires MsgReady(n, q.doc.flat, AddMsg(parent, value, tag), Received(n, q))
    ensures var op := IdeAdd(RefOf(parent), value, tag, 0);
      Resolve(Receive(q, op), op.parent) == Some(Who(n, parent)) && IdeWithin(q.counter)(op)
  {
    if parent.Known? { assert parent.who in q.doc.chars; }
  }

  lemma ConfirmationsGrow(log: seq<Event>, e: Event)
    ensures Confirmations(log + [e]) == Confirmations(log) + if e.Confirmed? then [Confirmation(e.tag, e.who)] else []
  {
    assert (log + [e])[..|log|] == log;
  }

  lemma NewsOfAdd(log: seq<Event>, tag: u32, who: Ident, e: Event)
    requires !e.Confirmed?
    ensures News(log, log + [Confirmed(tag, who), e]) == [Confirmation(tag, who)]
  {
    ConfirmationsGrow([], Confirmed(tag, who));
    ConfirmationsGrow([Confirmed(tag, who)], e);
    assert [] + [Confirmed(tag, who)] == [Confirmed(tag, who)] &&
      [Confirmed(tag, who)] + [e] == [Confirmed(tag, who), e];
    assert (log + [Confirmed(tag, who), e])[|log|..] == [Confirmed(tag, who), e];
  }

  lemma NewsOfRemove(log: seq<Event>, e: Event)
    requires !e.Confirmed?
    ensures News(log, log + [e]) == []
  {
    ConfirmationsGrow([], e);
    assert [] + [e] == [e] && (log + [e])[|log|..] == [e];
  }

  lemma ServerAfterAdd(n: Numbering, q: State, parent: Name, value: char, tag: u32)
    requires ServerOk(n, q) && q.counter < MAX_U32
    requires MsgReady(n, q.doc.flat, AddMsg(parent, value, tag), Received(n, q))
    ensures var q', who := Receives(q, AddMsg(parent, value, tag)), Ident(q.counter + 1, q.ids.peer);
      var crdt := NewCrdt(who, value, Who(n, parent));
      ServerOk(n, q') && q'.counter == q.counter + 1 && q'.log == q.log + [Confirmed(tag, who), LocalAdd(crdt, crdt)] &&
      who == Who(n, Pending(tag)) && who !in q.doc.chars &&
      q'.doc.chars == q.doc.chars[who := Relation(value, Who(n, parent), false)] &&
      q'.doc.flat == InsertAfter(q.doc.flat, Who(n, parent), who)
  {
    var op := IdeAdd(RefOf(parent), value, tag, 0);
    ParentResolves(n, q, parent, value, tag);
    ServeAdd(q, op, Who(n, parent));
    TagsFollow(n, q.ids, q.doc.chars, tag, NewCrdt(Ident(q.counter + 1, q.ids.peer), value, Who(n, parent)));
  }

  function NewCrdt(who: Ident, value: char, parent: Ident): Crdt {
    Crdt(who, Relation(value, parent, false))
  }

  lemma TagsFollow(n: Numbering, ids: Roster, chars: Chars, tag: u32, crdt: Crdt)
    requires TagsOk(n, ids, tag, chars) && n.base + tag < MAX_U32 && crdt.who == Sigma(n, tag)
    ensures TagsOk(n, Roster(ids.peer, ids.tags[tag := crdt.who]), tag as nat + 1, chars[crdt.who := crdt.relation])
  {}

  lemma NewsAfterAdd(n: Numbering, q: State, parent: Name, value: char, tag: u32)
    requires ServerOk(n, q) && q.counter < MAX_U32
    requires MsgReady(n, q.doc.flat, AddMsg(parent, value, tag), Received(n, q))
    ensures News(q.log, Receives(q, AddMsg(parent, value, tag)).log) == [Confirmation(tag, Who(n, Pending(tag)))]
  {
    ServerAfterAdd(n, q, parent, value, tag);
    var crdt := NewCrdt(Ident(q.counter + 1, q.ids.peer), value, Who(n, parent));
    NewsOfAdd(q.log, tag, crdt.who, LocalAdd(crdt, crdt));
  }

  /** What serving an add changes. */
  lemma ServeAddStep(n: Numbering, s: System)
    requires ServerOk(n, s.server) && UpOk(n, s) && s.up != [] && s.up[0].AddMsg? && s.server.counter < MAX_U32
    ensures var s', m := Next(s, Serve, n), s.up[0];
      Received(n, s.server) == m.tag && ServerOk(n, s'.server) && Took(n, s, s') &&
      s'.down == s.down + [Confirmation(m.tag, Who(n, Pending(m.tag)))] &&
        AddRecorded(n, s.server.doc.chars, s'.server.doc.chars, m)
  {
    var m, q := s.up[0], s.server;
    assert MsgReady(n, q.doc.flat, m, Received(n, q));
    ServeAddMessage(n, q, m);
    var q' := Receives(q, m);
    assert Next(s, Serve, n) == System(s.mirror, s.up[1..], s.down + News(q.log, q'.log), q');
  }

  lemma ServeAddMessage(n: Numbering, q: State, m: Message)
    requires ServerOk(n, q) && q.counter < MAX_U32 && m.AddMsg? && MsgReady(n, q.doc.flat, m, Received(n, q))
    ensures var q' := Receives(q, m);
      ServerOk(n, q') && q'.counter == q.counter + 1 &&
      News(q.log, q'.log) == [Confirmation(m.tag, Who(n, Pending(m.tag)))] &&
      AddRecorded(n, q.doc.chars, q'.doc.chars, m) && q'.doc.flat == Applied(n, q.doc.flat, m) &&
        Received(n, q) == m.tag
  {
    NewsAfterAdd(n, q, m.parent, m.value, m.tag);
    ServerAfterAdd(n, q, m.parent, m.value, m.tag);
  }

  /** The add that the message carries is all that is new. */
  predicate AddRecorded(n: Numbering, chars: Chars, chars': Chars, m: Message) {
    m.AddMsg? && Who(n, Pending(m.tag)) !in chars &&
      chars' == chars[Who(n, Pending(m.tag)) := Relation(m.value, Who(n, m.parent), false)]
  }

  lemma ServerAfterRemove(n: Numbering, q: State, who: Ident)
    requires ServerOk(n, q) && who in q.doc.flat && who != ROOT
    ensures var q' := RemoveOp(q, who, 0, true);
      ServerOk(n, q') && q'.counter == q.counter && News(q.log, q'.log) == [] &&
      q'.doc.flat == Erase(q.doc.flat, who) &&
      q'.doc.chars == Tombstoned(q.doc.chars, who)
  {
    RemoveKeepsWellFormed(q.doc, who);
    RemoveWithin(q, who, 0, true);
    NewsOfRemove(q.log, LocalRemove(who));
  }

  lemma ServeRemoveStep(n: Numbering, s: System)
    requires ServerOk(n, s.server) && UpOk(n, s) && s.up != [] && s.up[0].RemoveMsg? && s.server.counter < MAX_U32
    ensures var s', who := Next(s, Serve, n), s.up[0].who;
      ServerOk(n, s'.server) && Took(n, s, s') && s'.down == s.down && who in s.server.doc.chars &&
      s'.server.doc.chars == Tombstoned(s.server.doc.chars, who)
  {
    assert MsgReady(n, s.server.doc.flat, s.up[0], Received(n, s.server));
    ServerAfterRemove(n, s.server, s.up[0].who);
    assert s.down + [] == s.down;
  }

  /** `s'` is `s` after the server took the first message. */
  predicate Took(n: Numbering, s: System, s': System) {
    s.up != [] && s'.mirror == s.mirror && s'.up == s.up[1..] &&
    s'.server.doc.flat == Applied(n, s.server.doc.flat, s.up[0]) &&
    Received(n, s'.server) == Received(n, s.server) + (if s.up[0].AddMsg? then 1 else 0) &&
    s.server.doc.chars.Keys <= s'.server.doc.chars.Keys
  }

  /** Serving a message moves it from the channel into the list, so nothing changes for the editor. */
  lemma ServeKeeps(n: Numbering, s: System)
    requires Inv(n, s) && s.up != [] && s.server.counter < MAX_U32
    ensures Inv(n, Next(s, Serve, n))
  {
    if s.up[0].AddMsg? { ServeAddKeeps(n, s); } else { ServeRemoveKeeps(n, s); }
  }

  lemma ServeAddKeeps(n: Numbering, s: System)
    requires Inv(n, s) && s.up != [] && s.up[0].AddMsg? && s.server.counter < MAX_U32
    ensures Inv(n, Next(s, Serve, n))
  {
    var s' := Next(s, Serve, n);
    ServeAddStep(n, s);
    assert DownOk(n, s') by { ServeAddDown(n, s, s'); }
    assert MirrorOk(n, s') && MirrorIsFuture(n, s') && InStep(n, s') && UpOk(n, s') by { ServeQuiet(n, s, s'); }
    assert ValuesOk(n, s') by { ServeAddValues(n, s, s'); }
  }

  lemma ServeRemoveKeeps(n: Numbering, s: System)
    requires Inv(n, s) && s.up != [] && s.up[0].RemoveMsg? && s.server.counter < MAX_U32
    ensures Inv(n, Next(s, Serve, n))
  {
    var s' := Next(s, Serve, n);
    ServeRemoveStep(n, s);
    assert DownOk(n, s');
    assert MirrorOk(n, s') && MirrorIsFuture(n, s') && InStep(n, s') && UpOk(n, s') by { ServeQuiet(n, s, s'); }
    assert ValuesOk(n, s') by { ServeRemoveValues(n, s, s'); }
  }

  lemma ServeQuiet(n: Numbering, s: System, s': System)
    requires MirrorOk(n, s) && MirrorIsFuture(n, s) && InStep(n, s) && UpOk(n, s) && Took(n, s, s')
    ensures MirrorOk(n, s') && MirrorIsFuture(n, s') && InStep(n, s') && UpOk(n, s')
  {
    SameFuture(n, s, s');
    NamesStayOk(n, s, s');
    RestIsReady(n, s, s');
  }

  lemma RestIsReady(n: Numbering, s: System, s': System)
    requires UpOk(n, s) && Took(n, s, s')
    ensures UpOk(n, s')
  {
    assert forall m :: m in s'.up ==> m in s.up;
  }

  lemma SameFuture(n: Numbering, s: System, s': System)
    requires Took(n, s, s')
    ensures Future(n, s'.server.doc.flat, s'.up) == Future(n, s.server.doc.flat, s.up)
    ensures Received(n, s'.server) + Adds(s'.up) == Received(n, s.server) + Adds(s.up)
  {}

  lemma NamesStayOk(n: Numbering, s: System, s': System)
    requires MirrorOk(n, s) && Took(n, s, s')
    requires Future(n, s'.server.doc.flat, s'.up) == Future(n, s.server.doc.flat, s.up)
    ensures MirrorOk(n, s')
  {
    assert forall name :: NameOk(s, name) ==> NameOk(s', name);
  }

  lemma ServeAddDown(n: Numbering, s: System, s': System)
    requires DownOk(n, s) && InStep(n, s) && Took(n, s, s') && s.up[0].AddMsg? && s.up[0].tag == Received(n, s.server)
    requires s'.down == s.down + [Confirmation(s.up[0].tag, Who(n, Pending(s.up[0].tag)))]
    ensures DownOk(n, s')
  {
    var tag, k := s.up[0].tag, |s.down|;
    assert Told(s.down, tag) ==> false;
    forall t: u32 ensures Told(s'.down, t) <==> Told(s.down, t) || t == tag {
      assert s'.down[k].tag == tag;
      if i :| 0 <= i < |s.down| && s.down[i].tag == t { assert s'.down[i].tag == t; }
    }
  }

  /** Adds in flight carry the next tags, in order. */
  lemma {:induction false} ReadyTags(n: Numbering, list: seq<Ident>, up: seq<Message>, k: nat)
    requires Ready(n, list, up, k)
    ensures forall m :: m in up && m.AddMsg? ==> k <= m.tag < k + Adds(up) && n.base + m.tag < MAX_U32
    decreases |up|
  {
    if up != [] {
      ReadyTags(n, Applied(n, list, up[0]), up[1..], k + if up[0].AddMsg? then 1 else 0);
      assert up == [up[0]] + up[1..];
    }
  }

  lemma ServeAddValues(n: Numbering, s: System, s': System)
    requires ValuesOk(n, s) && s.up != [] && s.up[0].AddMsg? && s'.mirror == s.mirror && s'.up == s.up[1..]
    requires UpOk(n, s) && AddRecorded(n, s.server.doc.chars, s'.server.doc.chars, s.up[0])
    ensures ValuesOk(n, s')
  {
    LaterTags(n, s);
    forall cell | cell in s'.mirror.cells ensures Carried(n, s', cell) {
      assert Carried(n, s, cell);
      StillCarried(n, s, s', cell);
    }
  }

  /** No later add in flight carries the first one's identity. */
  lemma LaterTags(n: Numbering, s: System)
    requires UpOk(n, s) && s.up != [] && s.up[0].AddMsg?
    ensures forall m :: m in s.up[1..] && m.AddMsg? ==> Who(n, Pending(m.tag)) != Who(n, Pending(s.up[0].tag))
  {
    ReadyTags(n, Applied(n, s.server.doc.flat, s.up[0]), s.up[1..], Received(n, s.server) + 1);
  }

  lemma StillCarried(n: Numbering, s: System, s': System, cell: Cell)
    requires Carried(n, s, cell) && s.up != [] && s.up[0].AddMsg? && s'.up == s.up[1..]
    requires AddRecorded(n, s.server.doc.chars, s'.server.doc.chars, s.up[0])
    requires forall m :: m in s.up[1..] && m.AddMsg? ==> Who(n, Pending(m.tag)) != Who(n, Pending(s.up[0].tag))
    ensures Carried(n, s', cell)
  {
    var w := Who(n, cell.name);
    if w !in s.server.doc.chars {
      var m :| m in s.up && m.AddMsg? && Who(n, Pending(m.tag)) == w && m.value == cell.value;
      assert s.up == [s.up[0]] + s.up[1..];
      assert m == s.up[0] || m in s'.up;
    }
  }

  lemma ServeRemoveValues(n: Numbering, s: System, s': System)
    requires ValuesOk(n, s) && s.up != [] && s.up[0].RemoveMsg? && s'.mirror == s.mirror && s'.up == s.up[1..]
    requires s.up[0].who in s.server.doc.chars && s'.server.doc.chars == Tombstoned(s.server.doc.chars, s.up[0].who)
    ensures ValuesOk(n, s')
  {
    assert s.up == [s.up[0]] + s.up[1..];
    assert forall m :: m in s.up && m.AddMsg? ==> m in s'.up;
    forall cell | cell in s'.mirror.cells ensures Carried(n, s', cell) { assert Carried(n, s, cell); }
  }

  // ----- The editor types -----

  lemma {:induction false} SparedDistinct(s: seq<Ident>, gone: set<Ident>)
    requires Distinct(s)
    ensures Distinct(Spared(s, gone))
  {
    if s != [] {
      SparedDistinct(s[1..], gone);
      SparedMembers(s[1..], gone);
      assert forall x :: x in s[1..] ==> x != s[0];
    }
  }

  function Coming(n: Numbering, s: System): seq<Ident> {
    Future(n, s.server.doc.flat, s.up)
  }

  /** One more message that makes sense at the end of the channel. */
  lemma UpGrows(n: Numbering, s: System, s': System, m: Message)
    requires InStep(n, s) && UpOk(n, s) && s'.server == s.server
    requires s'.up == s.up + [m] && n.base + s'.mirror.nextTag <= MAX_U32
    requires s'.mirror.nextTag == s.mirror.nextTag + Adds([m])
    requires MsgReady(n, Coming(n, s), m, Received(n, s.server) + Adds(s.up))
    requires m.RemoveMsg? ==> m.who in s.server.doc.chars
    ensures InStep(n, s') && UpOk(n, s') && Coming(n, s') == Applied(n, Coming(n, s), m)
  {
    FutureSnoc(n, s.server.doc.flat, s.up, m);
    AddsSnoc(s.up, m);
    ReadySnoc(n, s.server.doc.flat, s.up, m, Received(n, s.server), Received(n, s.server) + Adds(s.up));
  }

  /** What the editor shows has no repeats, and what is gone was never the sentinel. */
  lemma ShownIsSound(n: Numbering, s: System)
    requires Inv(n, s)
    ensures Distinct(Coming(n, s)) && Distinct(Names(n, s.mirror.cells))
    ensures forall x :: x in Coming(n, s) ==> x.id <= n.base + s.mirror.nextTag
    ensures forall x :: x in Names(n, s.mirror.cells) ==> x in Coming(n, s) && x !in Gone(n, s.mirror.pendingRemovals)
    ensures forall t :: t in s.mirror.pendingAdds ==> t < s.mirror.nextTag && Who(n, Pending(t)) == Sigma(n, t)
  {
    FutureIsSound(n, s.server.doc.flat, s.up, Received(n, s.server));
    SparedDistinct(Coming(n, s), Gone(n, s.mirror.pendingRemovals));
    SparedMembers(Coming(n, s), Gone(n, s.mirror.pendingRemovals));
  }

  lemma NamesInsert(n: Numbering, cells: seq<Cell>, k: nat, cell: Cell)
    requires k < |cells| && Distinct(Names(n, cells))
    ensures Names(n, InsertAt(cells, k + 1, cell)) ==
      InsertAfter(Names(n, cells), Who(n, cells[k].name), Who(n, cell.name))
  {
    IndexUnique(Names(n, cells), k);
    InsertShifts(cells, k + 1, cell);
    InsertShifts(Names(n, cells), k + 1, Who(n, cell.name));
  }

  /** `s'` is `s` after the editor sent the add of `cell` behind `parent`. */
  predicate Sent(s: System, s': System, k: nat, value: char) {
    k < |s.mirror.cells| && s.mirror.nextTag <= MAX_U32 && s'.server == s.server && s'.down == s.down &&
    s'.up == s.up + [AddMsg(s.mirror.cells[k].name, value, s.mirror.nextTag)] &&
    s'.mirror == Mirror(InsertAt(s.mirror.cells, k + 1, Cell(value, Pending(s.mirror.nextTag))),
                        s.mirror.pendingAdds + {s.mirror.nextTag as u32}, s.mirror.pendingRemovals,
                        s.mirror.nextTag + 1)
  }

  lemma TypeReady(n: Numbering, s: System, k: nat, value: char)
    requires Inv(n, s) && k < |s.mirror.cells| && n.base + s.mirror.nextTag < MAX_U32
    ensures MsgReady(n, Coming(n, s), AddMsg(s.mirror.cells[k].name, value, s.mirror.nextTag),
      Received(n, s.server) + Adds(s.up))
  {
    ShownIsSound(n, s);
    assert Names(n, s.mirror.cells)[k] in Names(n, s.mirror.cells);
    assert NameOk(s, s.mirror.cells[k].name);
  }

  lemma TypeUp(n: Numbering, s: System, s': System, k: nat, value: char)
    requires Inv(n, s) && Sent(s, s', k, value) && n.base + s.mirror.nextTag < MAX_U32
    ensures InStep(n, s') && UpOk(n, s')
    ensures Coming(n, s') == InsertAfter(Coming(n, s), Who(n, s.mirror.cells[k].name), Sigma(n, s.mirror.nextTag))
  {
    TypeReady(n, s, k, value);
    UpGrows(n, s, s', AddMsg(s.mirror.cells[k].name, value, s.mirror.nextTag));
  }

  /** Typing on the mirror is typing on the list that is to come. */
  lemma MirrorGrows(n: Numbering, cells: seq<Cell>, list: seq<Ident>, gone: set<Ident>, k: nat, cell: Cell)
    requires Names(n, cells) == Spared(list, gone) && Distinct(Names(n, cells)) && k < |cells|
    requires Who(n, cells[k].name) in list && Who(n, cells[k].name) !in gone && Who(n, cell.name) !in gone
    ensures Names(n, InsertAt(cells, k + 1, cell)) ==
      Spared(InsertAfter(list, Who(n, cells[k].name), Who(n, cell.name)), gone)
  {
    NamesInsert(n, cells, k, cell);
    SparedInsertAfter(list, gone, Who(n, cells[k].name), Who(n, cell.name));
  }

  lemma TypeMirror(n: Numbering, s: System, s': System, k: nat, value: char)
    requires Inv(n, s) && Sent(s, s', k, value) && n.base + s.mirror.nextTag < MAX_U32
    ensures MirrorIsFuture(n, s')
  {
    ShownIsSound(n, s);
    assert Names(n, s.mirror.cells)[k] in Names(n, s.mirror.cells);
    assert Coming(n, s') == InsertAfter(Coming(n, s), Who(n, s.mirror.cells[k].name), Sigma(n, s.mirror.nextTag)) by {
      TypeUp(n, s, s', k, value);
    }
    MirrorGrows(n, s.mirror.cells, Coming(n, s), Gone(n, s.mirror.pendingRemovals), k,
      Cell(value, Pending(s.mirror.nextTag)));
  }

  lemma TypeCells(n: Numbering, s: System, s': System, k: nat, value: char)
    requires Inv(n, s) && Sent(s, s', k, value) && n.base + s.mirror.nextTag < MAX_U32
    ensures MirrorOk(n, s')
  {
    var cell := Cell(value, Pending(s.mirror.nextTag));
    ShownIsSound(n, s);
    TypeUp(n, s, s', k, value);
    InsertShifts(s.mirror.cells, k + 1, cell);
    forall j | 0 <= j < |s'.mirror.cells| ensures NameOk(s', s'.mirror.cells[j].name) {
      if j != k + 1 { assert s'.mirror.cells[j] == s.mirror.cells[if j <= k then j else j - 1]; }
    }
  }

  lemma TypeValues(n: Numbering, s: System, s': System, k: nat, value: char)
    requires Inv(n, s) && Sent(s, s', k, value) && n.base + s.mirror.nextTag < MAX_U32
    ensures ValuesOk(n, s')
  {
    var m := AddMsg(s.mirror.cells[k].name, value, s.mirror.nextTag);
    assert m in s'.up && forall o :: o in s.up ==> o in s'.up;
    forall cell | cell in s'.mirror.cells ensures Carried(n, s', cell) {
      if cell in s.mirror.cells { assert Carried(n, s, cell); }
    }
  }

  lemma TypeDown(n: Numbering, s: System, s': System, k: nat, value: char)
    requires DownOk(n, s) && InStep(n, s) && Sent(s, s', k, value)
    ensures DownOk(n, s')
  {}

  lemma TypeKeeps(n: Numbering, s: System, k: nat, value: char)
    requires Inv(n, s) && k < |s.mirror.cells| && n.base + s.mirror.nextTag < MAX_U32
    ensures Inv(n, Next(s, Type(k, value), n))
  {
    var s' := Next(s, Type(k, value), n);
    assert Sent(s, s', k, value);
    assert InStep(n, s') && UpOk(n, s') by { TypeUp(n, s, s', k, value); }
    assert MirrorIsFuture(n, s') by { TypeMirror(n, s, s', k, value); }
    assert MirrorOk(n, s') by { TypeCells(n, s, s', k, value); }
    assert ValuesOk(n, s') by { TypeValues(n, s, s', k, value); }
    assert DownOk(n, s') by { TypeDown(n, s, s', k, value); }
  }

  // ----- The editor deletes -----

  lemma NamesErase(n: Numbering, cells: seq<Cell>, k: nat)
    requires k < |cells| && Distinct(Names(n, cells))
    ensures Names(n, cells[..k] + cells[k + 1..]) == Erase(Names(n, cells), Who(n, cells[k].name))
  {
    EraseSplits(Names(n, cells), k);
    var names, kept := Names(n, cells), cells[..k] + cells[k + 1..];
    assert Names(n, kept) == names[..k] + names[k + 1..];
  }

  /** The editor takes the cell at `k` away. */
  predicate Dropped(s: System, s': System, k: nat) {
    0 < k < |s.mirror.cells| && s'.server == s.server && s'.down == s.down &&
    s'.mirror.cells == s.mirror.cells[..k] + s.mirror.cells[k + 1..] &&
    s'.mirror.pendingAdds == s.mirror.pendingAdds && s'.mirror.nextTag == s.mirror.nextTag
  }

  lemma OthersRemain(n: Numbering, cells: seq<Cell>, k: nat)
    requires k < |cells| && Distinct(Names(n, cells))
    ensures forall cell :: cell in cells[..k] + cells[k + 1..] ==> cell in cells && cell.name != cells[k].name
  {
    var kept, names := cells[..k] + cells[k + 1..], Names(n, cells);
    forall j | 0 <= j < |kept| ensures kept[j] in cells && kept[j].name != cells[k].name {
      var i := if j < k then j else j + 1;
      assert kept[j] == cells[i] && names[i] != names[k];
    }
  }

  /** No other cell has the name of the one that goes. */
  lemma DropCells(n: Numbering, s: System, s': System, k: nat)
    requires Inv(n, s) && Dropped(s, s', k)
    ensures s'.mirror.cells != [] && s'.mirror.cells[0].name == Known(ROOT)
    ensures forall cell :: cell in s'.mirror.cells ==>
      cell in s.mirror.cells && NameOk(s, cell.name) && cell.name != s.mirror.cells[k].name
    ensures Who(n, s.mirror.cells[k].name) != ROOT
  {
    ShownIsSound(n, s);
    assert Names(n, s.mirror.cells)[0] == ROOT && Names(n, s.mirror.cells)[0] != Names(n, s.mirror.cells)[k];
    OthersRemain(n, s.mirror.cells, k);
  }

  lemma DropValues(n: Numbering, s: System, s': System, k: nat)
    requires Inv(n, s) && Dropped(s, s', k) && s.up <= s'.up
    ensures ValuesOk(n, s')
  {
    DropCells(n, s, s', k);
    assert forall m :: m in s.up ==> m in s'.up;
    forall cell | cell in s'.mirror.cells ensures Carried(n, s', cell) { assert Carried(n, s, cell); }
  }

  lemma EraseKnownUp(n: Numbering, s: System, k: nat)
    requires Inv(n, s) && 0 < k < |s.mirror.cells| && s.mirror.cells[k].name.Known?
    ensures var s', who := Next(s, Erases(k), n), s.mirror.cells[k].name.who;
      Dropped(s, s', k) && InStep(n, s') && UpOk(n, s') && Coming(n, s') == Erase(Coming(n, s), who)
  {
    var s', who := Next(s, Erases(k), n), s.mirror.cells[k].name.who;
    ShownIsSound(n, s);
    DropCells(n, s, s', k);
    assert Names(n, s.mirror.cells)[k] == who;
    assert NameOk(s, s.mirror.cells[k].name);
    UpGrows(n, s, s', RemoveMsg(who));
  }

  lemma EraseKnownMirror(n: Numbering, s: System, k: nat)
    requires Inv(n, s) && 0 < k < |s.mirror.cells| && s.mirror.cells[k].name.Known?
    ensures MirrorIsFuture(n, Next(s, Erases(k), n))
  {
    EraseKnownUp(n, s, k);
    ShownIsSound(n, s);
    NamesErase(n, s.mirror.cells, k);
    SparedErase(Coming(n, s), Gone(n, s.mirror.pendingRemovals), s.mirror.cells[k].name.who);
  }

  lemma EraseKnownCells(n: Numbering, s: System, k: nat)
    requires Inv(n, s) && 0 < k < |s.mirror.cells| && s.mirror.cells[k].name.Known?
    ensures MirrorOk(n, Next(s, Erases(k), n))
  {
    EraseKnownUp(n, s, k);
    ShownIsSound(n, s);
    DropCells(n, s, Next(s, Erases(k), n), k);
    assert Names(n, s.mirror.cells)[k] in Names(n, s.mirror.cells);
    KnownNotGone(n, s, s.mirror.cells[k].name.who);
  }

  /** A confirmed character: the remove goes out at once. */
  lemma EraseKnownKeeps(n: Numbering, s: System, k: nat)
    requires Inv(n, s) && 0 < k < |s.mirror.cells| && s.mirror.cells[k].name.Known?
    ensures Inv(n, Next(s, Erases(k), n))
  {
    var s' := Next(s, Erases(k), n);
    EraseKnownUp(n, s, k);
    assert MirrorIsFuture(n, s') by { EraseKnownMirror(n, s, k); }
    assert MirrorOk(n, s') by { EraseKnownCells(n, s, k); }
    assert ValuesOk(n, s') by { DropValues(n, s, s', k); }
  }

  lemma KnownNotGone(n: Numbering, s: System, who: Ident)
    requires Inv(n, s) && who !in Gone(n, s.mirror.pendingRemovals)
    ensures forall t :: t in s.mirror.pendingRemovals ==> Who(n, Pending(t)) in Erase(Coming(n, s), who)
  {
    forall t | t in s.mirror.pendingRemovals ensures Who(n, Pending(t)) in Erase(Coming(n, s), who) {
      assert Who(n, Pending(t)) in Gone(n, s.mirror.pendingRemovals);
    }
  }

  lemma GoneGrows(n: Numbering, tags: set<u32>, t: u32)
    ensures Gone(n, tags + {t}) == Gone(n, tags) + {Who(n, Pending(t))}
  {}

  /** Holding one more remove takes its target off the shown list. */
  lemma HoldMore(n: Numbering, list: seq<Ident>, tags: set<u32>, t: u32)
    requires Who(n, Pending(t)) != ROOT
    ensures Spared(list, Gone(n, tags + {t})) == Erase(Spared(list, Gone(n, tags)), Who(n, Pending(t)))
    ensures Spared(list, Gone(n, tags + {t})) == Spared(Erase(list, Who(n, Pending(t))), Gone(n, tags))
  {
    GoneGrows(n, tags, t);
    SparedErase(list, Gone(n, tags), Who(n, Pending(t)));
    SparedStep(list, Who(n, Pending(t)), Gone(n, tags));
  }

  lemma HoldLess(n: Numbering, list: seq<Ident>, tags: set<u32>, t: u32)
    requires t in tags && Who(n, Pending(t)) != ROOT
    ensures Spared(list, Gone(n, tags)) == Spared(Erase(list, Who(n, Pending(t))), Gone(n, tags - {t}))
  {
    HoldMore(n, list, tags - {t}, t);
    assert tags - {t} + {t} == tags;
  }

  lemma HoldMirror(n: Numbering, s: System, s': System, k: nat, t: u32)
    requires Inv(n, s) && Dropped(s, s', k) && s'.up == s.up && s.mirror.cells[k].name == Pending(t)
    requires s'.mirror.pendingRemovals == s.mirror.pendingRemovals + {t}
    ensures MirrorOk(n, s')
  {
    DropCells(n, s, s', k);
    assert NameOk(s, s.mirror.cells[k].name);
    assert Who(n, Pending(t)) in Coming(n, s) by {
      ShownIsSound(n, s);
      assert Names(n, s.mirror.cells)[k] == Who(n, Pending(t));
    }
    NamesHeld(s, s', t);
  }

  lemma NamesHeld(s: System, s': System, t: u32)
    requires s'.server == s.server && s'.mirror.pendingAdds == s.mirror.pendingAdds
    requires s'.mirror.pendingRemovals == s.mirror.pendingRemovals + {t}
    requires forall cell :: cell in s'.mirror.cells ==> NameOk(s, cell.name) && cell.name != Pending(t)
    ensures forall j :: 0 <= j < |s'.mirror.cells| ==> NameOk(s', s'.mirror.cells[j].name)
  {
    forall j | 0 <= j < |s'.mirror.cells| ensures NameOk(s', s'.mirror.cells[j].name) {
      assert s'.mirror.cells[j] in s'.mirror.cells;
    }
  }

  /** A character that is not confirmed yet: the remove is held. */
  lemma ErasePendingKeeps(n: Numbering, s: System, k: nat)
    requires Inv(n, s) && 0 < k < |s.mirror.cells| && s.mirror.cells[k].name.Pending?
    ensures Inv(n, Next(s, Erases(k), n))
  {
    var s', t := Next(s, Erases(k), n), s.mirror.cells[k].name.tag;
    ShownIsSound(n, s);
    DropCells(n, s, s', k);
    assert s.up + [] == s.up;
    assert MirrorIsFuture(n, s') by {
      NamesErase(n, s.mirror.cells, k);
      HoldMore(n, Coming(n, s), s.mirror.pendingRemovals, t);
    }
    HoldMirror(n, s, s', k, t);
    DropValues(n, s, s', k);
  }

  // ----- A confirmation arrives -----

  lemma NamesRename(n: Numbering, cells: seq<Cell>, tag: u32, who: Ident)
    requires who == Who(n, Pending(tag))
    ensures Names(n, Rename(cells, tag, who)) == Names(n, cells)
  {}

  lemma ConfirmFacts(n: Numbering, s: System)
    requires Inv(n, s) && s.down != []
    ensures var tag, who := s.down[0].tag, s.down[0].who;
      tag in s.mirror.pendingAdds && who == Sigma(n, tag) == Who(n, Pending(tag)) && who in s.server.doc.chars &&
        tag < Received(n, s.server)
  {
    ShownIsSound(n, s);
    assert Told(s.down, s.down[0].tag);
  }

  lemma ToldTail(down: seq<Confirmation>)
    requires down != [] && forall i, j :: 0 <= i < j < |down| ==> down[i].tag != down[j].tag
    ensures forall t :: Told(down[1..], t) <==> Told(down, t) && t != down[0].tag
  {
    forall t ensures Told(down[1..], t) <==> Told(down, t) && t != down[0].tag {
      if i :| 0 <= i < |down[1..]| && down[1..][i].tag == t { assert down[i + 1].tag == t; }
      if i :| 0 < i < |down| && down[i].tag == t { assert down[1..][i - 1].tag == t; }
    }
  }

  lemma ConfirmDown(n: Numbering, s: System)
    requires Inv(n, s) && s.down != []
    ensures DownOk(n, Next(s, Confirm, n))
  {
    ConfirmFacts(n, s);
    ToldTail(s.down);
  }

  lemma ConfirmValues(n: Numbering, s: System)
    requires Inv(n, s) && s.down != []
    ensures ValuesOk(n, Next(s, Confirm, n))
  {
    ConfirmFacts(n, s);
    var s', tag, who := Next(s, Confirm, n), s.down[0].tag, s.down[0].who;
    assert forall m :: m in s.up ==> m in s'.up;
    forall cell | cell in s'.mirror.cells ensures Carried(n, s', cell) {
      var k :| 0 <= k < |s'.mirror.cells| && s'.mirror.cells[k] == cell;
      assert Carried(n, s, s.mirror.cells[k]);
    }
  }

  lemma ConfirmNames(n: Numbering, s: System)
    requires Inv(n, s) && s.down != []
    ensures var s' := Next(s, Confirm, n);
      s'.mirror.cells != [] && s'.mirror.cells[0].name == Known(ROOT) &&
      forall k :: 0 <= k < |s'.mirror.cells| ==> NameOk(s', s'.mirror.cells[k].name)
  {
    ConfirmFacts(n, s);
    var s' := Next(s, Confirm, n);
    forall k | 0 <= k < |s'.mirror.cells| ensures NameOk(s', s'.mirror.cells[k].name) {
      assert NameOk(s, s.mirror.cells[k].name);
    }
  }

  lemma ReleaseMirror(n: Numbering, s: System)
    requires Inv(n, s) && s.down != [] && s.down[0].tag in s.mirror.pendingRemovals
    ensures forall t :: t in s.mirror.pendingRemovals && t != s.down[0].tag ==>
      Who(n, Pending(t)) in Erase(Coming(n, s), s.down[0].who)
  {
    ConfirmFacts(n, s);
    ShownIsSound(n, s);
  }

  lemma ConfirmHeldComing(n: Numbering, s: System)
    requires Inv(n, s) && s.down != [] && s.down[0].tag in s.mirror.pendingRemovals
    ensures var s' := Next(s, Confirm, n);
      InStep(n, s') && UpOk(n, s') && Coming(n, s') == Erase(Coming(n, s), s.down[0].who)
  {
    ConfirmFacts(n, s);
    UpGrows(n, s, Next(s, Confirm, n), RemoveMsg(s.down[0].who));
  }

  lemma ConfirmHeldUp(n: Numbering, s: System)
    requires Inv(n, s) && s.down != [] && s.down[0].tag in s.mirror.pendingRemovals
    ensures var s' := Next(s, Confirm, n); MirrorIsFuture(n, s') && InStep(n, s') && UpOk(n, s')
  {
    ConfirmFacts(n, s);
    ConfirmHeldComing(n, s);
    NamesRename(n, s.mirror.cells, s.down[0].tag, s.down[0].who);
    HoldLess(n, Coming(n, s), s.mirror.pendingRemovals, s.down[0].tag);
  }

  lemma ConfirmHeldMirror(n: Numbering, s: System)
    requires Inv(n, s) && s.down != [] && s.down[0].tag in s.mirror.pendingRemovals
    ensures MirrorOk(n, Next(s, Confirm, n))
  {
    ConfirmFacts(n, s);
    ConfirmHeldComing(n, s);
    ConfirmNames(n, s);
    ReleaseMirror(n, s);
  }

  /** A confirmation that lets a held remove go. */
  lemma ConfirmHeldKeeps(n: Numbering, s: System)
    requires Inv(n, s) && s.down != [] && s.down[0].tag in s.mirror.pendingRemovals
    ensures Inv(n, Next(s, Confirm, n))
  {
    var s' := Next(s, Confirm, n);
    assert MirrorIsFuture(n, s') && InStep(n, s') && UpOk(n, s') by { ConfirmHeldUp(n, s); }
    assert MirrorOk(n, s') by { ConfirmHeldMirror(n, s); }
    assert DownOk(n, s') by { ConfirmDown(n, s); }
    assert ValuesOk(n, s') by { ConfirmValues(n, s); }
  }

  lemma ConfirmPlainKeeps(n: Numbering, s: System)
    requires Inv(n, s) && s.down != [] && s.down[0].tag !in s.mirror.pendingRemovals
    ensures Inv(n, Next(s, Confirm, n))
  {
    ConfirmFacts(n, s);
    var s', tag, who := Next(s, Confirm, n), s.down[0].tag, s.down[0].who;
    assert s'.up == s.up && s'.mirror.pendingRemovals == s.mirror.pendingRemovals;
    NamesRename(n, s.mirror.cells, tag, who);
    ConfirmNames(n, s);
    ConfirmDown(n, s);
    ConfirmValues(n, s);
  }

  // ----- Whole runs -----

  lemma StepKeeps(n: Numbering, s: System, a: Action)
    requires Inv(n, s) && Enabled(s, a, n)
    ensures Inv(n, Next(s, a, n))
  {
    match a
    case Type(k, value) => TypeKeeps(n, s, k, value);
    case Erases(k) =>
      if s.mirror.cells[k].name.Known? {
        EraseKnownKeeps(n, s, k);
      } else {
        ErasePendingKeeps(n, s, k);
      }
    case Serve => ServeKeeps(n, s);
    case Confirm =>
      if s.down[0].tag in s.mirror.pendingRemovals {
        ConfirmHeldKeeps(n, s);
      } else {
        ConfirmPlainKeeps(n, s);
      }
  }

  ghost function After(n: Numbering, s: System, actions: seq<Action>): (s': System)
    requires Sound(s.server.doc)
    ensures Sound(s'.server.doc)
    decreases |actions|
  {
    if actions == [] then s
    else if !Enabled(s, actions[0], n) then s
    else After(n, Next(s, actions[0], n), actions[1..])
  }

  ghost predicate AllEnabled(n: Numbering, s: System, actions: seq<Action>)
    requires Sound(s.server.doc)
    decreases |actions|
  {
    actions == [] || (Enabled(s, actions[0], n) && AllEnabled(n, Next(s, actions[0], n), actions[1..]))
  }

  /** What the editor shows, the sentinel included. */
  function Text(cells: seq<Cell>): (text: string)
    ensures |text| == |cells| && forall k :: 0 <= k < |cells| ==> text[k] == cells[k].value
  {
    seq(|cells|, k requires 0 <= k < |cells| => cells[k].value)
  }

  /** The same keystrokes on a plain string. */
  function Edit(text: string, a: Action): string {
    match a
    case Type(k, value) => if k < |text| then InsertAt(text, k + 1, value) else text
    case Erases(k) => if k < |text| then text[..k] + text[k + 1..] else text
    case Serve => text
    case Confirm => text
  }

  function EditAll(text: string, actions: seq<Action>): string
    decreases |actions|
  {
    if actions == [] then text else EditAll(Edit(text, actions[0]), actions[1..])
  }

  /** A run, and the string that its keystrokes spell, go through every action, one after the other. */
  lemma {:induction false} RunsCompose(n: Numbering, s: System, a: seq<Action>, b: seq<Action>)
    requires Sound(s.server.doc) && AllEnabled(n, s, a + b)
    ensures AllEnabled(n, s, a) && AllEnabled(n, After(n, s, a), b) && After(n, s, a + b) == After(n, After(n, s, a), b)
    ensures forall text :: EditAll(text, a + b) == EditAll(EditAll(text, a), b)
    decreases |a|
  {
    if a == [] {
      assert a + b == b;
    } else {
      assert (a + b)[0] == a[0] && (a + b)[1..] == a[1..] + b;
      RunsCompose(n, Next(s, a[0], n), a[1..], b);
    }
  }

  lemma OneAction(n: Numbering, s: System, a: Action, text: string)
    requires Sound(s.server.doc) && Enabled(s, a, n)
    ensures AllEnabled(n, s, [a]) && After(n, s, [a]) == Next(s, a, n) && EditAll(text, [a]) == Edit(text, a)
  {
    assert [a][1..] == [];
  }

  lemma TypeEdits(cells: seq<Cell>, k: nat, cell: Cell)
    requires k < |cells|
    ensures Text(InsertAt(cells, k + 1, cell)) == InsertAt(Text(cells), k + 1, cell.value)
  {
    InsertShifts(cells, k + 1, cell);
    InsertShifts(Text(cells), k + 1, cell.value);
  }

  lemma EraseEdits(cells: seq<Cell>, k: nat)
    requires k < |cells|
    ensures Text(cells[..k] + cells[k + 1..]) == Text(cells)[..k] + Text(cells)[k + 1..]
  {}

  lemma RenameEdits(cells: seq<Cell>, tag: u32, who: Ident)
    ensures Text(Rename(cells, tag, who)) == Text(cells)
  {}

  lemma StepEdits(n: Numbering, s: System, a: Action)
    requires Sound(s.server.doc) && Enabled(s, a, n)
    ensures Text(Next(s, a, n).mirror.cells) == Edit(Text(s.mirror.cells), a)
  {
    match a
    case Type(k, value) => TypeEdits(s.mirror.cells, k, Cell(value, Pending(s.mirror.nextTag)));
    case Erases(k) => EraseEdits(s.mirror.cells, k);
    case Serve =>
    case Confirm => RenameEdits(s.mirror.cells, s.down[0].tag, s.down[0].who);
  }

  /** Whatever the channels delay: the mirror stays the server's list with the messages in flight
      applied and the held removes left out, no remove overtakes the confirmation of its add, and
      the editor shows the string that its keystrokes spell. */
  lemma {:induction false} RunKeeps(n: Numbering, s: System, actions: seq<Action>)
    requires Inv(n, s) && AllEnabled(n, s, actions)
    ensures var s' := After(n, s, actions);
      Inv(n, s') && Text(s'.mirror.cells) == EditAll(Text(s.mirror.cells), actions)
    decreases |actions|
  {
    if actions != [] {
      StepKeeps(n, s, actions[0]);
      StepEdits(n, s, actions[0]);
      RunKeeps(n, Next(s, actions[0], n), actions[1..]);
    }
  }

  /** Nothing in flight either way. */
  predicate Quiet(s: System) {
    s.up == [] && s.down == []
  }

  /** The characters that the server shows. */
  function ServerText(d: Doc): (text: string)
    ensures |text| == |d.flat|
    ensures forall k :: 0 <= k < |d.flat| && d.flat[k] in d.chars ==> text[k] == d.chars[d.flat[k]].value
  {
    seq(|d.flat|, k requires 0 <= k < |d.flat| =>
      if d.flat[k] in d.chars then d.chars[d.flat[k]].value else ROOT_RELATION.value)
  }

  lemma QuietIsSame(n: Numbering, s: System)
    requires Inv(n, s) && Quiet(s)
    ensures s.mirror.pendingAdds == {} && s.mirror.pendingRemovals == {}
    ensures forall k :: 0 <= k < |s.mirror.cells| ==> s.mirror.cells[k].name.Known?
    ensures Names(n, s.mirror.cells) == s.server.doc.flat
  {
    assert forall t: u32 :: !Told(s.down, t);
    assert s.mirror.pendingAdds == {};
    forall k | 0 <= k < |s.mirror.cells| ensures s.mirror.cells[k].name.Known? {
      assert NameOk(s, s.mirror.cells[k].name);
    }
    SparedNone(s.server.doc.flat, {});
    assert Gone(n, {}) == {};
  }

  lemma QuietText(n: Numbering, s: System)
    requires Inv(n, s) && Quiet(s)
    ensures ServerText(s.server.doc) == Text(s.mirror.cells)
    ensures forall k :: 0 <= k < |s.mirror.cells| ==> s.mirror.cells[k].name == Known(s.server.doc.flat[k])
  {
    QuietIsSame(n, s);
    forall k | 0 <= k < |s.server.doc.flat|
      ensures ServerText(s.server.doc)[k] == Text(s.mirror.cells)[k]
      ensures s.mirror.cells[k].name == Known(s.server.doc.flat[k])
    {
      assert Carried(n, s, s.mirror.cells[k]);
      assert Names(n, s.mirror.cells)[k] == s.server.doc.flat[k] && s.server.doc.flat[k] in s.server.doc.flat;
    }
  }

  /** One editor, any run, any delays: once nothing is in flight, editor and server show the same
      identities, all confirmed, and the server's text is the string that the keystrokes spell. */
  lemma QuiescentRunAgrees(n: Numbering, s: System, actions: seq<Action>)
    requires Inv(n, s) && AllEnabled(n, s, actions) && Quiet(After(n, s, actions))
    ensures var s' := After(n, s, actions);
      Names(n, s'.mirror.cells) == s'.server.doc.flat && s'.mirror.pendingRemovals == {} &&
      (forall k :: 0 <= k < |s'.mirror.cells| ==> s'.mirror.cells[k].name == Known(s'.server.doc.flat[k])) &&
      ServerText(s'.server.doc) == EditAll(Text(s.mirror.cells), actions)
  {
    RunKeeps(n, s, actions);
    var s' := After(n, s, actions);
    QuietIsSame(n, s');
    QuietText(n, s');
  }

  // ----- The start -----

  /** A fresh mirror in front of a fresh server. */
  function Fresh(n: Numbering, q: State): System {
    System(Mirror([Cell('\0', Known(ROOT))], {}, {}, 0), [], [], q)
  }

  lemma FreshHolds(n: Numbering, q: State)
    requires ServerOk(n, q) && q.counter == n.base && q.doc.flat == [ROOT]
    ensures Inv(n, Fresh(n, q)) && Quiet(Fresh(n, q))
  {
    assert Gone(n, {}) == {};
    SparedNone(q.doc.flat, {});
  }
}
