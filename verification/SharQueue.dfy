/** The queue as the program keeps it: mutable backlogs and worklists in front of one file. Every
    method is proved against the state machine of `Queue`. */
module SharQueueModule {
  import opened Types
  import opened Lists
  import opened Document
  import opened Rows
  import opened SharFileModule
  import opened Queue
  import opened QueueSafety

  /** The predecessor that the rows give is the one that the list gives. */
  lemma ShownIsPredecessor(d: Doc, rows: Projection, pos: Position, crdt: Crdt)
    requires Represents(rows, d) && At(rows, pos, crdt.who)
    ensures Shown(d, crdt) == match Predecessor(rows, pos)
      case Some(pred) => crdt.(relation := crdt.relation.(parent := pred))
      case None => crdt
  {
    AtSpot(rows, pos, crdt.who);
    PredecessorInList(d.chars, rows, pos);
  }

  lemma ChainWithin(text: string)
    requires |text| <= MAX_U32
    ensures forall x :: x in Chain(text, 0).chars ==> x.id <= |text|
  {
    ChainIsLoaded(text, 0);
    var d := Chain(text, 0);
    forall x | x in d.chars ensures x.id <= |text| {
      assert x in d.flat;
      var k := IndexOf(d.flat, x);
      assert d.flat[k] == Link(0, k);
    }
  }

  lemma AddNetworkValid(q: State, crdt: Crdt, row: nat)
    requires Sound(q.doc) && Within(q) && Tagged(q) && q.net.work == [] && q.ide.work == []
    ensures var q' := AddNetwork(q, crdt, row); Within(q') && Tagged(q') && q'.net.work == [] && q'.ide.work == []
  {
    var q1, q' := NetLand(q, crdt, row), AddNetwork(q, crdt, row);
    assert Within(q') by {
      NetLandWithin(q, crdt, row);
      DrainNetWithin(q1);
    }
    assert SameEditorSide(q, q') by {
      NetLandFrame(q, crdt, row);
      DrainNetFrame(q1);
    }
    assert Tagged(q');
    assert q'.net.work == [] by { NothingWaiting(q.net.backlog, crdt.who); }
  }

  lemma AddIdeValid(q: State, op: IdeAdd)
    requires Sound(q.doc) && Within(q) && Tagged(q) && q.net.work == [] && q.counter < MAX_U32
    requires IdeWithin(q.counter)(op)
    ensures var q', q1 := AddIde(q, op), Receive(q, op);
      Within(q') && Tagged(q') && q'.net.work == [] && q'.ide.work == [] &&
      op.tag in q1.ids.tags && Given(q1, op) !in q1.ide.backlog && q' == DrainIde(IdeLand(q1, op))
  {
    var q1 := Receive(q, op);
    ReceiveWithin(q, op);
    ReceiveTagged(q, op);
    IdeFirstIsLand(q1, op);
    assert IdeWithin(q1.counter)(op);
    IdeLandWithin(q1, op);
    IdeLandTagged(q1, op);
    DrainIdeWithin(IdeLand(q1, op));
    DrainIdeTagged(IdeLand(q1, op));
    DrainIdeFrame(IdeLand(q1, op));
  }

  /** Taking the next insert off the worklist. */
  lemma NextOfWorklist(q: State, op: IdeAdd)
    requires Sound(q.doc) && Tagged(q) && q.ide.work != [] && op == q.ide.work[0] && DrainIde(q).anchored
    ensures var q1 := q.(ide := q.ide.(work := q.ide.work[1..]));
      op.tag in q.ids.tags && Tagged(q1) && IdeLand(q1, op).anchored && Tagged(IdeLand(q1, op)) &&
        PopIde(q) == IdeLand(q1, op)
  {
    var q1 := q.(ide := q.ide.(work := q.ide.work[1..]));
    assert op in q.ide.work && HasTag(q.ids.tags)(op);
    assert Tagged(q1) by { assert forall o :: o in q1.ide.work ==> o in q.ide.work; }
    IdeLandTagged(q1, op);
    assert PopIde(q).anchored by { DrainIdeFrame(PopIde(q)); }
  }

  lemma NothingWaiting<K, V>(m: map<K, seq<V>>, k: K)
    ensures k !in m ==> m - {k} == m
  {}

  lemma ReleaseNothing(q: State, who: Ident)
    ensures who !in q.net.backlog ==> ReleaseNet(q, who) == q
    ensures who !in q.ide.backlog ==> ReleaseIde(q, who) == q
  {
    NothingWaiting(q.net.backlog, who);
    NothingWaiting(q.ide.backlog, who);
  }

  class SharQueue {
    var ideBacklog: map<Ident, seq<IdeAdd>>
    var ideTagBacklog: map<u32, seq<IdeAdd>>
    var networkBacklog: map<Ident, seq<NetOp>>
    var ideWorklist: seq<IdeAdd>
    var networkWorklist: seq<NetOp>
    var tagIdentities: map<u32, Ident>
    const peer: u32
    const tree: SharFile
    var counter: u32
    ghost var log: seq<Event>
    ghost var anchored: bool

    ghost function View(): State
      reads this, tree
    {
      State(tree.View(), counter, Roster(peer, tagIdentities), NetSide(networkBacklog, networkWorklist),
            IdeSide(ideBacklog, ideTagBacklog, ideWorklist), log, anchored)
    }

    /** Between calls the worklists are empty, and everything that waits has its identity. */
    ghost predicate Valid()
      reads this, tree
    {
      tree.Valid() && ideWorklist == [] && networkWorklist == [] && Within(View()) && Tagged(View())
    }

    /** Loads a file and starts counting behind its characters. */
    constructor (text: string, thisPeer: u32)
      requires |text| <= MAX_U32
      ensures Valid() && fresh(tree)
      ensures View() == State(Chain(text, 0), |text|, Roster(thisPeer, map[]), NetSide(map[], []),
        IdeSide(map[], map[], []), [], true)
    {
      peer := thisPeer;
      tree := new SharFile();
      ideBacklog, ideTagBacklog, networkBacklog := map[], map[], map[];
      ideWorklist, networkWorklist, tagIdentities := [], [], map[];
      log, anchored := [], true;
      counter := 0;
      new;
      counter := tree.AddFile(text, 0);
      ChainWithin(text);
    }

    // ----- Network operations -----

    method AddNetworkOperation(crdt: Crdt, row: nat)
      requires Valid() && AddNetwork(View(), crdt, row).anchored
      modifies this, tree
      ensures Valid() && View() == AddNetwork(old(View()), crdt, row)
    {
      AddNetworkValid(View(), crdt, row);
      AddNetworkOperationInner(crdt, row, false);
    }

    /** Hands one add to the file. */
    method TryAdd(lineHint: nat, crdt: Crdt) returns (r: Result<Option<Position>>)
      requires tree.Valid() && (Lands(tree.characters, crdt) ==> Anchored(tree.characters, crdt))
      modifies this`anchored, tree
      ensures tree.Valid()
      ensures r.Err? <==> crdt.relation.parent !in old(tree.characters)
      ensures r == Ok(None) <==> crdt.relation.parent in old(tree.characters) && crdt.who in old(tree.characters)
      ensures View() == if Lands(old(tree.characters), crdt) then Land(old(View()), crdt) else old(View())
      ensures r.Ok? && r.value.Some? ==> At(tree.projection, r.value.value, crdt.who)
    {
      anchored := anchored && (Lands(tree.characters, crdt) ==> Anchored(tree.characters, crdt));
      r := tree.AddCrdt(lineHint, crdt);
    }

    /** The add as an editor is to see it: behind its predecessor on screen. */
    method Rewrite(crdt: Crdt, position: Position) returns (shown: Crdt)
      requires tree.Valid() && At(tree.projection, position, crdt.who)
      ensures shown == Shown(tree.View(), crdt)
    {
      var pred := tree.PredecessorIdentity(position);
      ShownIsPredecessor(tree.View(), tree.projection, position, crdt);
      shown := crdt;
      if pred.Some? {
        shown := crdt.(relation := crdt.relation.(parent := pred.value));
      }
    }

    method AddNetworkOperationInner(crdt: Crdt, row: nat, clearingWorklist: bool)
      requires tree.Valid()
      requires if clearingWorklist then NetLand(View(), crdt, row).anchored else AddNetwork(View(), crdt, row).anchored
      modifies this, tree
      ensures tree.Valid()
      ensures View() == if clearingWorklist then NetLand(old(View()), crdt, row) else AddNetwork(old(View()), crdt, row)
      decreases if clearingWorklist then 0 else 3
    {
      ghost var q := View();
      assert NetLand(q, crdt, row).anchored by { DrainNetFrame(NetLand(q, crdt, row)); }
      counter := if crdt.who.id > counter then crdt.who.id else counter;
      if crdt.who == ROOT {
        return;
      }
      var r := TryAdd(row, crdt);
      match r {
        case Ok(Some(position)) =>
          assert ReleaseNet(View().(log := log + [RemoteAdd(Shown(tree.View(), crdt))]), crdt.who) ==
            NetLand(q, crdt, row);
          NetworkAddLanded(crdt, position, clearingWorklist);
        case Ok(None) =>
        case Err(_) =>
          networkBacklog := Push(networkBacklog, crdt.relation.parent, NetAdd(crdt, row));
      }
    }

    /** Tells the editor, then lets the dependants go: onto the worklist, or through it. */
    method NetworkAddLanded(crdt: Crdt, position: Position, clearingWorklist: bool)
      requires tree.Valid() && At(tree.projection, position, crdt.who)
      requires var q := ReleaseNet(View().(log := log + [RemoteAdd(Shown(tree.View(), crdt))]), crdt.who);
        clearingWorklist || (crdt.who in networkBacklog ==> DrainNet(q).anchored)
      modifies this, tree
      ensures tree.Valid()
      ensures var q := ReleaseNet(old(View()).(log := old(log) + [RemoteAdd(Shown(old(tree.View()), crdt))]), crdt.who);
        View() == if clearingWorklist || crdt.who !in old(networkBacklog) then q else DrainNet(q)
      decreases if clearingWorklist then 0 else 2, 1
    {
      var shown := Rewrite(crdt, position);
      log := log + [RemoteAdd(shown)];
      ReleaseNothing(View(), crdt.who);
      if clearingWorklist {
        ReleaseNetwork(crdt.who);
      } else {
        ClearNetworkBacklog(crdt.who);
      }
    }

    method ReleaseNetwork(who: Ident)
      modifies this`networkBacklog, this`networkWorklist
      ensures View() == ReleaseNet(old(View()), who)
    {
      ReleaseNothing(View(), who);
      if who in networkBacklog {
        networkWorklist := networkWorklist + networkBacklog[who];
        networkBacklog := networkBacklog - {who};
      }
    }

    /** Replays whatever waited for `who`. */
    method ClearNetworkBacklog(who: Ident)
      requires tree.Valid() && (who in networkBacklog ==> DrainNet(ReleaseNet(View(), who)).anchored)
      modifies this, tree
      ensures tree.Valid()
      ensures View() == if who in old(networkBacklog) then DrainNet(ReleaseNet(old(View()), who)) else old(View())
      decreases 2, 0
    {
      if who in networkBacklog {
        ReleaseNetwork(who);
        DrainNetworkWorklist();
      }
    }

    method DrainNetworkWorklist()
      requires tree.Valid() && DrainNet(View()).anchored
      modifies this, tree
      ensures tree.Valid() && View() == DrainNet(old(View()))
      decreases 1
    {
      while networkWorklist != []
        invariant tree.Valid() && DrainNet(View()) == DrainNet(old(View()))
        decreases NetPending(View()), |networkWorklist|
      {
        ghost var q := View();
        assert PopNet(q).anchored by { DrainNetFrame(PopNet(q)); }
        var item := networkWorklist[0];
        networkWorklist := networkWorklist[1..];
        match item {
          case NetAdd(crdt, row) => AddNetworkOperationInner(crdt, row, true);
          case NetRemove(who, row) => RemoveNetworkOperation(who, row);
        }
        assert View() == PopNet(q);
      }
    }

    // ----- Removes -----

    method RemoveOperation(who: Ident, row: nat) returns (removed: Option<Position>)
      requires tree.Valid()
      modifies this, tree
      ensures tree.Valid() && View() == RemoveOp(old(View()), who, row, false).(log := old(log))
      ensures removed.Some? <==> who != ROOT && Live(old(tree.characters), who)
    {
      if who == ROOT {
        return None;
      }
      var r := tree.RemoveCrdt(row, who);
      match r {
        case Ok(position) => removed := position;
        case Err(_) =>
          networkBacklog := Push(networkBacklog, who, NetRemove(who, row));
          removed := None;
      }
    }

    method RemoveNetworkOperation(who: Ident, row: nat)
      requires tree.Valid()
      modifies this, tree
      ensures tree.Valid() && View() == RemoveOp(old(View()), who, row, false)
      decreases 0
    {
      var operation := RemoveOperation(who, row);
      if operation.Some? {
        log := log + [RemoteRemove(who)];
      }
    }

    method RemoveIdeOperation(who: Ident, row: nat)
      requires Valid()
      modifies this, tree
      ensures Valid() && View() == RemoveOp(old(View()), who, row, true)
    {
      assert Within(RemoveOp(View(), who, row, true)) by { RemoveWithin(View(), who, row, true); }
      var operation := RemoveOperation(who, row);
      if operation.Some? {
        log := log + [LocalRemove(who)];
      }
    }

    // ----- Editor operations -----

    /** Assigns the next identity and confirms it at once; the insert may still have to wait. */
    method AddIdeOperation(op: IdeAdd) returns (confirmed: Ident)
      requires Valid() && counter < MAX_U32 && IdeWithin(counter)(op) && AddIde(View(), op).anchored
      modifies this, tree
      ensures Valid() && View() == AddIde(old(View()), op)
      ensures confirmed == Ident(old(counter) + 1, peer)
    {
      ghost var q := View();
      AddIdeValid(q, op);
      DrainIdeFrame(IdeLand(Receive(q, op), op));
      ReceiveTagged(q, op);
      confirmed := ReceiveOperation(op);
      AddIdeOperationInner(op, false);
      IdeLandTagged(Receive(q, op), op);
      DrainIdeWorklist();
    }

    method ReceiveOperation(op: IdeAdd) returns (who: Ident)
      requires tree.Valid() && counter < MAX_U32
      modifies this
      ensures tree.Valid() && View() == Receive(old(View()), op) && who == Ident(old(counter) + 1, peer)
    {
      counter := counter + 1;
      who := Ident(counter, peer);
      tagIdentities := tagIdentities[op.tag := who];
      log := log + [Confirmed(op.tag, who)];
      NothingWaiting(ideTagBacklog, op.tag);
      if op.tag in ideTagBacklog {
        ideWorklist := ideWorklist + ideTagBacklog[op.tag];
        ideTagBacklog := ideTagBacklog - {op.tag};
      }
    }

    /** Resolves the parent and tries the insert; waits for the parent's tag or for the parent. */
    method AddIdeOperationInner(op: IdeAdd, clearingWorklist: bool)
      requires tree.Valid() && Tagged(View()) && op.tag in tagIdentities && IdeLand(View(), op).anchored
      requires clearingWorklist || Given(View(), op) !in ideBacklog
      modifies this, tree
      ensures tree.Valid() && View() == IdeLand(old(View()), op)
      decreases if clearingWorklist then 0 else 3
    {
      ghost var q := View();
      var parent: Option<Ident> := None;
      match op.parent {
        case ById(who) => parent := Some(who);
        case ByTag(tag) => if tag in tagIdentities { parent := Some(tagIdentities[tag]); }
      }
      if parent.None? {
        ideTagBacklog := Push(ideTagBacklog, op.parent.tag, op);
        return;
      }
      var crdt := Crdt(tagIdentities[op.tag], Relation(op.value, parent.value, false));
      var r := TryAdd(op.lineHint, crdt);
      match r {
        case Ok(Some(position)) =>
          assert Broadcast(ReleaseIde(View(), crdt.who), crdt) == IdeLand(q, op);
          IdeAddLanded(crdt, position, clearingWorklist);
        case Ok(None) =>
        case Err(_) =>
          ideBacklog := Push(ideBacklog, parent.value, op);
      }
    }

    /** Lets the dependants go, then broadcasts the add. */
    method IdeAddLanded(crdt: Crdt, position: Position, clearingWorklist: bool)
      requires tree.Valid() && Tagged(View()) && At(tree.projection, position, crdt.who)
      requires clearingWorklist || crdt.who !in ideBacklog
      modifies this, tree
      ensures tree.Valid() && View() == Broadcast(ReleaseIde(old(View()), crdt.who), crdt)
      decreases if clearingWorklist then 0 else 2, 1
    {
      ReleaseNothing(View(), crdt.who);
      if clearingWorklist {
        ReleaseIdeBacklog(crdt.who);
      } else {
        ClearIdeBacklog(crdt.who);
      }
      var shown := Rewrite(crdt, position);
      log := log + [LocalAdd(crdt, shown)];
    }

    method ReleaseIdeBacklog(who: Ident)
      modifies this`ideBacklog, this`ideWorklist
      ensures View() == ReleaseIde(old(View()), who)
    {
      ReleaseNothing(View(), who);
      if who in ideBacklog {
        ideWorklist := ideWorklist + ideBacklog[who];
        ideBacklog := ideBacklog - {who};
      }
    }

    /** Replays whatever waited for `who`; nothing does if it has only just been handed out. */
    method ClearIdeBacklog(who: Ident)
      requires tree.Valid() && Tagged(View()) && (who in ideBacklog ==> DrainIde(ReleaseIde(View(), who)).anchored)
      modifies this, tree
      ensures tree.Valid()
      ensures View() == if who in old(ideBacklog) then DrainIde(ReleaseIde(old(View()), who)) else old(View())
      ensures who !in old(ideBacklog) ==> tree.projection == old(tree.projection)
      decreases 2, 0
    {
      if who in ideBacklog {
        ReleaseTagged(View(), who);
        ReleaseIdeBacklog(who);
        DrainIdeWorklist();
      }
    }

    method DrainIdeWorklist()
      requires tree.Valid() && Tagged(View()) && DrainIde(View()).anchored
      modifies this, tree
      ensures tree.Valid() && View() == DrainIde(old(View()))
      decreases 1
    {
      while ideWorklist != []
        invariant tree.Valid() && Tagged(View()) && DrainIde(View()) == DrainIde(old(View()))
        decreases IdePending(View()), |ideWorklist|
      {
        ghost var q := View();
        var op := ideWorklist[0];
        NextOfWorklist(q, op);
        ideWorklist := ideWorklist[1..];
        AddIdeOperationInner(op, true);
        assert View() == PopIde(q);
      }
    }
  }
}
