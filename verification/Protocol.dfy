/** One editor and the server, connected by in-order channels that may delay everything: the
    editor's mirror is always the server's list once what is in flight has arrived. */
module Protocol {
  import opened Types
  import opened Lists
  import opened Document
  import opened Commute
  import opened Queue
  import opened QueueSafety

  // ----- The system -----

  /** What the editor calls a character: its identity once confirmed, its own tag before. */
  datatype Name = Known(who: Ident) | Pending(tag: u32)

  datatype Cell = Cell(value: char, name: Name)

  /** The mirror with its lines laid end to end; the first cell is the sentinel. */
  datatype Mirror = Mirror(cells: seq<Cell>, pendingAdds: set<u32>, pendingRemovals: set<u32>, nextTag: nat)

  datatype Message = AddMsg(parent: Name, value: char, tag: u32) | RemoveMsg(who: Ident)

  datatype Confirmation = Confirmation(tag: u32, who: Ident)

  datatype System = System(mirror: Mirror, up: seq<Message>, down: seq<Confirmation>, server: State)

  function RefOf(name: Name): ParentRef {
    match name
    case Known(who) => ById(who)
    case Pending(tag) => ByTag(tag)
  }

  /** The counter and the peer id that the session starts with. */
  datatype Numbering = Numbering(base: nat, peer: u32)

  // ----- The editor -----

  /** Typing `value` behind the cell at index `k`. */
  function MirrorInsert(m: Mirror, k: nat, value: char): (Mirror, Message)
    requires k < |m.cells| && m.nextTag <= MAX_U32
  {
    (Mirror(InsertAt(m.cells, k + 1, Cell(value, Pending(m.nextTag))),
      m.pendingAdds + {m.nextTag as u32}, m.pendingRemovals, m.nextTag + 1),
     AddMsg(m.cells[k].name, value, m.nextTag))
  }

  /** Deleting the cell at index `k`: at once if it is confirmed, on confirmation otherwise. */
  function MirrorDelete(m: Mirror, k: nat): (Mirror, seq<Message>)
    requires k < |m.cells|
  {
    var rest := m.(cells := m.cells[..k] + m.cells[k + 1..]);
    match m.cells[k].name
    case Known(who) => (rest, [RemoveMsg(who)])
    case Pending(tag) => (rest.(pendingRemovals := m.pendingRemovals + {tag}), [])
  }

  function Rename(cells: seq<Cell>, tag: u32, who: Ident): (r: seq<Cell>)
    ensures |r| == |cells|
    ensures forall k :: 0 <= k < |cells| ==>
      r[k] == if cells[k].name == Pending(tag) then cells[k].(name := Known(who)) else cells[k]
  {
    seq(|cells|, k requires 0 <= k < |cells| =>
      if cells[k].name == Pending(tag) then cells[k].(name := Known(who)) else cells[k])
  }

  /** The confirmation fills in the identity and lets a held remove go. */
  function MirrorConfirm(m: Mirror, tag: u32, who: Ident): (Mirror, seq<Message>) {
    if tag !in m.pendingAdds then (m, []) else
      var m' := m.(cells := Rename(m.cells, tag, who), pendingAdds := m.pendingAdds - {tag},
                  pendingRemovals := m.pendingRemovals - {tag});
      (m', if tag in m.pendingRemovals then [RemoveMsg(who)] else [])
  }

  // ----- The server -----

  ghost function Receives(q: State, msg: Message): (q': State)
    requires Sound(q.doc) && q.counter < MAX_U32
    ensures Sound(q'.doc)
  {
    match msg
    case AddMsg(parent, value, tag) => AddIde(q, IdeAdd(RefOf(parent), value, tag, 0))
    case RemoveMsg(who) => RemoveKeepsSound(q.doc, who); RemoveOp(q, who, 0, true)
  }

  /** The confirmations among some callbacks. */
  function Confirmations(log: seq<Event>): seq<Confirmation> {
    if log == [] then [] else
      var e := log[|log| - 1];
      Confirmations(log[..|log| - 1]) + if e.Confirmed? then [Confirmation(e.tag, e.who)] else []
  }

  /** The confirmations fired between two logs. */
  function News(log: seq<Event>, log': seq<Event>): seq<Confirmation> {
    if log <= log' then Confirmations(log'[|log|..]) else []
  }

  // ----- Steps -----

  datatype Action = Type(k: nat, value: char) | Erases(k: nat) | Serve | Confirm

  /** Something the editor, the server or the return channel can do now; ids do not run out. */
  predicate Enabled(s: System, a: Action, n: Numbering) {
    match a
    case Type(k, _) => k < |s.mirror.cells| && n.base + s.mirror.nextTag < MAX_U32
    case Erases(k) => 0 < k < |s.mirror.cells|
    case Serve => s.up != [] && s.server.counter < MAX_U32
    case Confirm => s.down != []
  }

  ghost function Next(s: System, a: Action, n: Numbering): (s': System)
    requires Sound(s.server.doc) && Enabled(s, a, n)
    ensures Sound(s'.server.doc)
  {
    match a
    case Type(k, value) =>
      var r := MirrorInsert(s.mirror, k, value);
      s.(mirror := r.0, up := s.up + [r.1])
    case Erases(k) =>
      var r := MirrorDelete(s.mirror, k);
      s.(mirror := r.0, up := s.up + r.1)
    case Serve =>
      var q := Receives(s.server, s.up[0]);
      s.(up := s.up[1..], server := q, down := s.down + News(s.server.log, q.log))
    case Confirm =>
      var r := MirrorConfirm(s.mirror, s.down[0].tag, s.down[0].who);
      s.(mirror := r.0, down := s.down[1..], up := s.up + r.1)
  }

  // ----- Who is who -----

  /** The identity that tag `t` gets: tags and ids are both handed out in order. */
  function Sigma(n: Numbering, t: nat): Ident
    requires n.base + t < MAX_U32
  {
    Ident(n.base + 1 + t, n.peer)
  }

  /** Which identity a name stands for, even before it is confirmed. */
  function Who(n: Numbering, name: Name): Ident {
    match name
    case Known(who) => who
    case Pending(tag) => if n.base + tag < MAX_U32 then Sigma(n, tag) else ROOT
  }

  function Names(n: Numbering, cells: seq<Cell>): (r: seq<Ident>)
    ensures |r| == |cells| && forall k :: 0 <= k < |cells| ==> r[k] == Who(n, cells[k].name)
  {
    seq(|cells|, k requires 0 <= k < |cells| => Who(n, cells[k].name))
  }

  /** What one message in flight does to the server's list. */
  function Applied(n: Numbering, list: seq<Ident>, msg: Message): seq<Ident> {
    match msg
    case AddMsg(parent, _, tag) => InsertAfter(list, Who(n, parent), Who(n, Pending(tag)))
    case RemoveMsg(who) => Erase(list, who)
  }

  /** The server's list once `up` has arrived. */
  function Future(n: Numbering, list: seq<Ident>, up: seq<Message>): seq<Ident>
    decreases |up|
  {
    if up == [] then list else Future(n, Applied(n, list, up[0]), up[1..])
  }

  function Gone(n: Numbering, tags: set<u32>): set<Ident> {
    set t | t in tags :: Who(n, Pending(t))
  }

  // ----- The invariant -----

  function Adds(up: seq<Message>): nat {
    if up == [] then 0 else (if up[0].AddMsg? then 1 else 0) + Adds(up[1..])
  }

  /** The message makes sense to a server that shows `list` and has handed out `k` ids. */
  predicate MsgReady(n: Numbering, list: seq<Ident>, msg: Message, k: nat) {
    match msg
    case AddMsg(parent, _, tag) =>
      tag == k && n.base + k < MAX_U32 && Who(n, parent) in list && (parent.Pending? ==> parent.tag < k) &&
        Sigma(n, k) !in list
    case RemoveMsg(who) => who in list && who != ROOT
  }

  predicate Ready(n: Numbering, list: seq<Ident>, up: seq<Message>, k: nat)
    decreases |up|
  {
    up == [] || (MsgReady(n, list, up[0], k) &&
      Ready(n, Applied(n, list, up[0]), up[1..], k + if up[0].AddMsg? then 1 else 0))
  }

  predicate Idle(q: State) {
    q.ide == IdeSide(map[], map[], []) && q.net == NetSide(map[], [])
  }

  ghost predicate ServerOk(n: Numbering, q: State) {
    && WellFormed(q.doc) && q.anchored && Idle(q) && Within(q)
    && n.base <= q.counter && TagsOk(n, q.ids, q.counter - n.base, q.doc.chars)
  }

  /** The first `k` tags got the next `k` ids of this peer, and those identities are recorded. */
  predicate TagsOk(n: Numbering, ids: Roster, k: nat, chars: Chars) {
    ids.peer == n.peer && forall t: u32 :: t < k ==>
      t in ids.tags && n.base + t < MAX_U32 && ids.tags[t] == Sigma(n, t) && Sigma(n, t) in chars
  }

  function Received(n: Numbering, q: State): int {
    q.counter - n.base
  }

  ghost predicate DownOk(n: Numbering, s: System) {
    && (forall i :: 0 <= i < |s.down| ==>
        s.down[i].tag < Received(n, s.server) && s.down[i].who == Who(n, Pending(s.down[i].tag)))
    && (forall i, j :: 0 <= i < j < |s.down| ==> s.down[i].tag != s.down[j].tag)
    && forall t: u32 :: t in s.mirror.pendingAdds <==>
         Received(n, s.server) <= t < s.mirror.nextTag || Told(s.down, t)
  }

  /** The confirmation of `t` is on its way. */
  predicate Told(down: seq<Confirmation>, t: u32) {
    exists i :: 0 <= i < |down| && down[i].tag == t
  }

  ghost predicate MirrorOk(n: Numbering, s: System) {
    && s.mirror.cells != [] && s.mirror.cells[0].name == Known(ROOT)
    && s.mirror.pendingRemovals <= s.mirror.pendingAdds
    && (forall k :: 0 <= k < |s.mirror.cells| ==> NameOk(s, s.mirror.cells[k].name))
    && forall t: u32 :: t in s.mirror.pendingRemovals ==> Who(n, Pending(t)) in Future(n, s.server.doc.flat, s.up)
  }

  predicate NameOk(s: System, name: Name) {
    match name
    case Known(who) => who in s.server.doc.chars
    case Pending(tag) => tag in s.mirror.pendingAdds && tag !in s.mirror.pendingRemovals
  }

  /** The mirror shows the server's list as it will be, without what the editor holds a remove for. */
  ghost predicate MirrorIsFuture(n: Numbering, s: System) {
    Names(n, s.mirror.cells) == Spared(Future(n, s.server.doc.flat, s.up), Gone(n, s.mirror.pendingRemovals))
  }

  /** The server shows this value for the name, or the add that will tell it is in flight. */
  predicate Carried(n: Numbering, s: System, cell: Cell) {
    if Who(n, cell.name) in s.server.doc.chars then s.server.doc.chars[Who(n, cell.name)].value == cell.value
    else exists m :: m in s.up && m.AddMsg? && Who(n, Pending(m.tag)) == Who(n, cell.name) && m.value == cell.value
  }

  predicate ValuesOk(n: Numbering, s: System) {
    forall cell :: cell in s.mirror.cells ==> Carried(n, s, cell)
  }

  /** Ids and tags keep step. */
  predicate InStep(n: Numbering, s: System) {
    Received(n, s.server) + Adds(s.up) == s.mirror.nextTag && n.base + s.mirror.nextTag <= MAX_U32
  }

  /** What is in flight makes sense on arrival, and no remove is sent before its add is confirmed. */
  predicate UpOk(n: Numbering, s: System) {
    Received(n, s.server) >= 0 && Ready(n, s.server.doc.flat, s.up, Received(n, s.server)) &&
    forall m :: m in s.up && m.RemoveMsg? ==> m.who in s.server.doc.chars
  }

  ghost predicate Inv(n: Numbering, s: System) {
    ServerOk(n, s.server) && DownOk(n, s) && MirrorOk(n, s) && MirrorIsFuture(n, s) && InStep(n, s) && UpOk(n, s) &&
      ValuesOk(n, s)
  }

  // ----- Lists in flight -----

  lemma {:induction false} FutureSnoc(n: Numbering, list: seq<Ident>, up: seq<Message>, m: Message)
    ensures Future(n, list, up + [m]) == Applied(n, Future(n, list, up), m)
    decreases |up|
  {
    if up == [] {
      assert up + [m] == [m] && [m][1..] == [];
    } else {
      assert (up + [m])[0] == up[0] && (up + [m])[1..] == up[1..] + [m];
      FutureSnoc(n, Applied(n, list, up[0]), up[1..], m);
    }
  }

  lemma {:induction false} AddsSnoc(up: seq<Message>, m: Message)
    ensures Adds(up + [m]) == Adds(up) + Adds([m])
    decreases |up|
  {
    if up == [] {
      assert up + [m] == [m];
    } else {
      assert (up + [m])[0] == up[0] && (up + [m])[1..] == up[1..] + [m];
      AddsSnoc(up[1..], m);
    }
  }

  lemma {:induction false} ReadySnoc(n: Numbering, list: seq<Ident>, up: seq<Message>, m: Message, k: nat, total: nat)
    requires Ready(n, list, up, k) && total == k + Adds(up) && MsgReady(n, Future(n, list, up), m, total)
    ensures Ready(n, list, up + [m], k)
    decreases |up|
  {
    if up == [] {
      assert up + [m] == [m] && [m][1..] == [];
    } else {
      var k' := k + if up[0].AddMsg? then 1 else 0;
      assert (up + [m])[0] == up[0] && (up + [m])[1..] == up[1..] + [m];
      ReadySnoc(n, Applied(n, list, up[0]), up[1..], m, k', total);
    }
  }

  /** What is in flight keeps the list free of repeats and of ids that are still to come. */
  lemma {:induction false} FutureIsSound(n: Numbering, list: seq<Ident>, up: seq<Message>, k: nat)
    requires Ready(n, list, up, k) && Distinct(list) && forall x :: x in list ==> x.id <= n.base + k
    ensures Distinct(Future(n, list, up)) && forall x :: x in Future(n, list, up) ==> x.id <= n.base + k + Adds(up)
    decreases |up|
  {
    if up != [] {
      AppliedIsSound(n, list, up[0], k);
      FutureIsSound(n, Applied(n, list, up[0]), up[1..], k + if up[0].AddMsg? then 1 else 0);
    }
  }

  lemma AppliedIsSound(n: Numbering, list: seq<Ident>, m: Message, k: nat)
    requires MsgReady(n, list, m, k) && Distinct(list) && forall x :: x in list ==> x.id <= n.base + k
    ensures var list', k' := Applied(n, list, m), k + if m.AddMsg? then 1 else 0;
      Distinct(list') && forall x :: x in list' ==> x.id <= n.base + k'
  {
    match m
    case AddMsg(parent, _, tag) => DistinctInsert(list, IndexOf(list, Who(n, parent)) + 1, Sigma(n, k));
    case RemoveMsg(who) => DistinctErase(list, who);
  }

  lemma {:induction false} SparedMembers(s: seq<Ident>, gone: set<Ident>)
    ensures forall x :: x in Spared(s, gone) <==> x in s && (x !in gone || x == ROOT)
  {
    if s != [] { SparedMembers(s[1..], gone); }
  }

  lemma {:induction false} SparedConcat(a: seq<Ident>, b: seq<Ident>, gone: set<Ident>)
    ensures Spared(a + b, gone) == Spared(a, gone) + Spared(b, gone)
  {
    if a == [] {
      assert a + b == b;
    } else {
      var first := if a[0] in gone && a[0] != ROOT then [] else [a[0]];
      SparedConcat(a[1..], b, gone);
      assert a + b != [] && (a + b)[0] == a[0] && (a + b)[1..] == a[1..] + b;
      assert first + (Spared(a[1..], gone) + Spared(b, gone)) == first + Spared(a[1..], gone) + Spared(b, gone);
    }
  }

  lemma NotBefore(s: seq<Ident>, p: Ident, j: nat)
    requires j <= |s| && p !in s[..j]
    ensures forall k :: 0 <= k < j ==> s[k] != p
  {
    forall k | 0 <= k < j ensures s[k] != p { assert s[..j][k] in s[..j]; }
  }

  lemma InsertAfterSplits(a: seq<Ident>, p: Ident, b: seq<Ident>, x: Ident)
    requires p !in a
    ensures InsertAfter(a + [p] + b, p, x) == a + [p, x] + b
  {
    var s := a + [p] + b;
    assert s[..|a|] == a && s[|a|] == p;
    NotBefore(s, p, |a|);
    NotBefore(s, p, IndexOf(s, p));
    assert s[..|a| + 1] == a + [p] && s[|a| + 1..] == b;
  }

  lemma SparedSplits(a: seq<Ident>, m: seq<Ident>, b: seq<Ident>, gone: set<Ident>)
    requires forall x :: x in m ==> x !in gone
    ensures Spared(a + m + b, gone) == Spared(a, gone) + m + Spared(b, gone)
  {
    SparedConcat(a + m, b, gone);
    SparedConcat(a, m, gone);
    SparedNone(m, gone);
  }

  /** Typing behind a shown character and leaving out what is gone commute. */
  lemma SparedInsertAfter(s: seq<Ident>, gone: set<Ident>, p: Ident, x: Ident)
    requires p in s && p !in gone && x !in gone
    ensures Spared(InsertAfter(s, p, x), gone) == InsertAfter(Spared(s, gone), p, x)
  {
    var i := IndexOf(s, p);
    var a, b := s[..i], s[i + 1..];
    assert s == a + [p] + b;
    InsertAfterSplits(a, p, b, x);
    SparedSplits(a, [p], b, gone);
    SparedSplits(a, [p, x], b, gone);
    SparedMembers(a, gone);
    InsertAfterSplits(Spared(a, gone), p, Spared(b, gone), x);
  }

  /** Erasing a shown character and leaving out what is gone commute. */
  lemma {:induction false} SparedErase(s: seq<Ident>, gone: set<Ident>, x: Ident)
    ensures Spared(Erase(s, x), gone) == Erase(Spared(s, gone), x)
  {
    if s != [] {
      var h, t := [s[0]], s[1..];
      SparedErase(t, gone, x);
      assert s == h + t;
      EraseConcat(h, t, x);
      SparedConcat(Erase(h, x), Erase(t, x), gone);
      SparedConcat(h, t, gone);
      EraseConcat(Spared(h, gone), Spared(t, gone), x);
      assert Spared(Erase(h, x), gone) == Erase(Spared(h, gone), x);
    }
  }

  lemma EraseConcat(a: seq<Ident>, b: seq<Ident>, x: Ident)
    requires |a| <= 1
    ensures Erase(a + b, x) == Erase(a, x) + Erase(b, x)
  {
    if a == [] { assert a + b == b; } else { assert (a + b)[1..] == b && a[1..] == []; }
  }
}
