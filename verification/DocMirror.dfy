/** The editor's mirror as the client keeps it: lines of shared, mutable cells. Every method is
    proved against the mirror of `Protocol`, in which the lines are laid end to end. */
module DocMirrorModule {
  import opened Types
  import opened Lists
  import opened Lines
  import opened Protocol

  /** A character or a line's anchor; confirmation fills in its identity in place. */
  class Slot {
    const value: char
    var name: Name

    constructor (value: char, name: Name)
      ensures this.value == value && this.name == name
    {
      this.value, this.name := value, name;
    }
  }

  function ValueOf(slot: Slot): char {
    slot.value
  }

  /** The cells are what the slots hold now. */
  ghost predicate Shows(slots: seq<Slot>, cells: seq<Cell>)
    reads slots
  {
    |cells| == |slots| && forall i :: 0 <= i < |slots| ==>
      slots[i].value == cells[i].value && slots[i].name == cells[i].name
  }

  lemma ShowsInsert(slots: seq<Slot>, cells: seq<Cell>, i: nat, slot: Slot, cell: Cell)
    requires i <= |slots| && Shows(slots, cells) && slot.value == cell.value && slot.name == cell.name
    ensures Shows(InsertAt(slots, i, slot), InsertAt(cells, i, cell))
  {
    InsertShifts(slots, i, slot);
    InsertShifts(cells, i, cell);
    var slots', cells' := InsertAt(slots, i, slot), InsertAt(cells, i, cell);
    forall k | 0 <= k < |slots'| ensures slots'[k].value == cells'[k].value && slots'[k].name == cells'[k].name {
      if k != i { assert slots'[k] == slots[if k < i then k else k - 1]; }
    }
  }

  lemma ShowsWithout(slots: seq<Slot>, cells: seq<Cell>, i: nat)
    requires i < |slots| && Shows(slots, cells)
    ensures Shows(Without(slots, i), Without(cells, i))
  {
    var slots', cells' := Without(slots, i), Without(cells, i);
    forall k | 0 <= k < |slots'| ensures slots'[k].value == cells'[k].value && slots'[k].name == cells'[k].name {
      assert slots'[k] == slots[if k < i then k else k + 1] && cells'[k] == cells[if k < i then k else k + 1];
    }
  }

  /** A cell without identity is the one that its tag is registered for. */
  ghost predicate Registered(slots: seq<Slot>, adds: map<u32, Slot>)
    reads slots
  {
    forall i :: 0 <= i < |slots| && slots[i].name.Pending? ==>
      slots[i].name.tag in adds && adds[slots[i].name.tag] == slots[i]
  }

  lemma RegisteredWithout(slots: seq<Slot>, adds: map<u32, Slot>, i: nat)
    requires i < |slots| && Registered(slots, adds)
    ensures Registered(Without(slots, i), adds)
  {
    var slots' := Without(slots, i);
    forall k | 0 <= k < |slots'| && slots'[k].name.Pending?
      ensures slots'[k].name.tag in adds && adds[slots'[k].name.tag] == slots'[k]
    {
      assert slots'[k] == slots[if k < i then k else k + 1];
    }
  }

  lemma RegisteredInsert(slots: seq<Slot>, adds: map<u32, Slot>, i: nat, slot: Slot, tag: u32)
    requires i <= |slots| && Registered(slots, adds) && slot.name == Pending(tag) && tag !in adds
    ensures Registered(InsertAt(slots, i, slot), adds[tag := slot])
  {
    InsertShifts(slots, i, slot);
    var slots' := InsertAt(slots, i, slot);
    var adds' := adds[tag := slot];
    forall k | 0 <= k < |slots'| && slots'[k].name.Pending?
      ensures slots'[k].name.tag in adds' && adds'[slots'[k].name.tag] == slots'[k]
    {
      if k != i { assert slots'[k] == slots[if k < i then k else k - 1]; }
    }
  }

  /** Every registered slot still waits under its own tag. */
  ghost predicate AddsOk(adds: map<u32, Slot>, nextTag: nat)
    reads adds.Values
  {
    forall t :: t in adds ==> t < nextTag && adds[t].name == Pending(t)
  }

  lemma AddsGrow(adds: map<u32, Slot>, tag: u32, slot: Slot)
    requires AddsOk(adds, tag) && slot.name == Pending(tag)
    ensures AddsOk(adds[tag := slot], tag as nat + 1) && adds[tag := slot].Keys == adds.Keys + {tag}
  {}

  lemma InsertedView(m: Mirror, k: nat, i: nat, tag: u32, value: char)
    requires k < |m.cells| && m.nextTag == tag as nat && i == k + 1
    ensures MirrorInsert(m, k, value).0 ==
      Mirror(InsertAt(m.cells, i, Cell(value, Pending(tag))), m.pendingAdds + {tag}, m.pendingRemovals, tag as nat + 1)
  {}

  class DocMirror {
    var lines: seq<Line<Slot>>
    var pendingAdds: map<u32, Slot>
    var pendingRemovals: map<u32, nat>
    var nextTag: nat
    /** The lines laid end to end, and what they show; row hints are left out. */
    ghost var slots: seq<Slot>
    ghost var view: Mirror

    ghost predicate Valid()
      reads this, slots, pendingAdds.Values
    {
      && LinesOk(lines, ValueOf) && slots == Cells(lines) && Shows(slots, view.cells)
      && view.pendingAdds == pendingAdds.Keys && view.pendingRemovals == pendingRemovals.Keys && view.nextTag == nextTag
      && AddsOk(pendingAdds, nextTag)
      && Registered(slots, pendingAdds)
    }

    constructor ()
      ensures Valid() && view == Mirror([Cell('\0', Known(ROOT))], {}, {}, 0)
    {
      var root := new Slot('\0', Known(ROOT));
      lines, pendingAdds, pendingRemovals, nextTag := [Line(root, [])], map[], map[], 0;
      slots, view := [root], Mirror([Cell('\0', Known(ROOT))], {}, {}, 0);
      new;
      CellsOne(lines[0]);
      assert Cells(lines) == [root];
    }

    /** Types `value` behind `offset` characters. No message: the offset is out of range. */
    method InsertChar(offset: nat, value: char) returns (sent: Option<Message>)
      requires Valid() && nextTag <= MAX_U32
      modifies this
      ensures Valid()
      ensures sent.None? <==> offset >= |old(view).cells|
      ensures sent.None? ==> view == old(view)
      ensures sent.Some? ==> (view, sent.value) == MirrorInsert(old(view), offset, value)
    {
      var found := Locate(lines, offset);
      if found.None? {
        return None;
      }
      var (row, col) := found.value;
      BehindIsAt(lines, row, col, offset);
      var parent := Behind(lines[row], col);
      var tag: u32 := nextTag;
      sent := Some(AddMsg(parent.name, value, tag));
      var slot := new Slot(value, Pending(tag));
      AddSlot(row, col, slot, offset);
    }

    /** Registers a new slot under the next tag and puts it in its line. */
    method AddSlot(row: nat, col: nat, slot: Slot, ghost k: nat)
      requires Valid() && nextTag <= MAX_U32 && slot.name == Pending(nextTag)
      requires row < |lines| && col <= |lines[row].cells| && k == Size(lines, row) + col < |view.cells|
      modifies this
      ensures Valid()
      ensures view == MirrorInsert(old(view), k, slot.value).0
    {
      ghost var i := k + 1;
      var tag: u32 := nextTag;
      var adds := pendingAdds[tag := slot];
      ghost var slots', view' := InsertAt(slots, i, slot), MirrorInsert(view, k, slot.value).0;
      assert Registered(slots', adds) by { RegisteredInsert(slots, pendingAdds, i, slot, tag); }
      AddsGrow(pendingAdds, tag, slot);
      InsertedView(view, k, i, tag, slot.value);
      assert Shows(slots', view'.cells) by { ShowsInsert(slots, view.cells, i, slot, Cell(slot.value, slot.name)); }
      var lines' := Place(lines, row, col, slot, ValueOf, i);
      lines, slots, view := lines', slots', view';
      pendingAdds, nextTag := adds, tag as nat + 1;
    }

    /** Deletes the character behind `offset` characters: at once if its identity is known, else when
        it is confirmed. `None`: there is no such character. */
    method DeleteChar(offset: nat) returns (sent: Option<seq<Message>>)
      requires Valid()
      modifies this
      ensures Valid()
      ensures sent.None? <==> offset + 1 >= |old(view).cells|
      ensures sent.None? ==> view == old(view)
      ensures sent.Some? ==> (view, sent.value) == MirrorDelete(old(view), offset + 1)
    {
      var found := LocateNext(lines, offset);
      if found.None? {
        return None;
      }
      var (row, col) := found.value;
      var hint := if col < |lines[row].cells| then row else row + 1;
      var slot := TakeSlot(row, col, offset + 1);
      var messages := RemoveIdentity(slot.name, hint);
      return Some(messages);
    }

    /** Sends the remove of a known identity at once; holds it under its tag otherwise. */
    method RemoveIdentity(name: Name, row: nat) returns (sent: seq<Message>)
      requires Valid()
      modifies this`pendingRemovals, this`view
      ensures Valid()
      ensures match name
        case Pending(tag) => sent == [] && view == old(view).(pendingRemovals := old(view).pendingRemovals + {tag})
        case Known(who) => sent == [RemoveMsg(who)] && view == old(view)
    {
      match name {
        case Pending(tag) =>
          pendingRemovals := pendingRemovals[tag := row];
          view := view.(pendingRemovals := view.pendingRemovals + {tag});
          return [];
        case Known(who) => return [RemoveMsg(who)];
      }
    }

    method TakeSlot(row: nat, col: nat, ghost i: nat) returns (slot: Slot)
      requires Valid() && row < |lines| && col <= |lines[row].cells| && (col < |lines[row].cells| || row + 1 < |lines|)
      requires i == Size(lines, row) + col + 1 < |view.cells|
      modifies this`lines, this`slots, this`view
      ensures Valid()
      ensures slot == old(slots)[i] && slot.name == old(view).cells[i].name
      ensures view == old(view).(cells := Without(old(view).cells, i))
    {
      var lines';
      slot, lines' := Take(lines, row, col, ValueOf, i);
      RegisteredWithout(slots, pendingAdds, i);
      ShowsWithout(slots, view.cells, i);
      lines, slots, view := lines', Without(slots, i), view.(cells := Without(view.cells, i));
      assert Shows(slots, view.cells);
    }

    /** Fills in the identity of a pending add, and lets go of a remove that waited for it. */
    method ConfirmAdd(tag: u32, who: Ident) returns (sent: seq<Message>)
      requires Valid()
      modifies this, if tag in pendingAdds then {pendingAdds[tag]} else {}
      ensures Valid()
      ensures (view, sent) == MirrorConfirm(old(view), tag, who)
    {
      if tag !in pendingAdds {
        return [];
      }
      view := MirrorConfirm(view, tag, who).0;
      var slot := pendingAdds[tag];
      pendingAdds := pendingAdds - {tag};
      slot.name := Known(who);
      sent := [];
      if tag in pendingRemovals {
        pendingRemovals := pendingRemovals - {tag};
        sent := [RemoveMsg(who)];
      }
    }

    /** What the editor shows, the sentinel left out. */
    method CurrentText() returns (text: string)
      requires Valid()
      ensures |text| + 1 == |view.cells| && forall i :: 0 <= i < |text| ==> text[i] == view.cells[i + 1].value
    {
      text := Lines.CurrentText(lines, ValueOf);
    }
  }
}
