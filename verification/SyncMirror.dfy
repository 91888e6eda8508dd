/** The mirror that drives the queue in the same process: every insert is confirmed before the next
    step, so lines, server list and plain text stay equal throughout. */
module SyncMirrorModule {
  import opened Types
  import opened Lists
  import opened Lines
  import opened Document
  import opened Queue
  import opened QueueSafety
  import opened Protocol
  import opened ProtocolSafety
  import opened SharQueueModule

  datatype Glyph = Glyph(who: Ident, value: char)

  function ValueOf(glyph: Glyph): char {
    glyph.value
  }

  /** The glyphs are what the server lists, with the server's values. */
  ghost predicate Spells(glyphs: seq<Glyph>, d: Doc) {
    |glyphs| == |d.flat| && forall i :: 0 <= i < |glyphs| ==>
      glyphs[i].who == d.flat[i] && d.flat[i] in d.chars && d.chars[d.flat[i]].value == glyphs[i].value
  }

  lemma SpellsText(glyphs: seq<Glyph>, d: Doc)
    requires Spells(glyphs, d)
    ensures ServerText(d) == Values(glyphs, ValueOf)
  {}

  lemma SpellsInsert(glyphs: seq<Glyph>, d: Doc, d': Doc, k: nat, glyph: Glyph, rel: Relation)
    requires Spells(glyphs, d) && Distinct(d.flat) && k < |glyphs| && glyph.who !in d.chars && rel.value == glyph.value
    requires d'.chars == d.chars[glyph.who := rel] && d'.flat == InsertAfter(d.flat, glyphs[k].who, glyph.who)
    ensures Spells(InsertAt(glyphs, k + 1, glyph), d')
  {
    IndexUnique(d.flat, k);
    InsertShifts(glyphs, k + 1, glyph);
    InsertShifts(d.flat, k + 1, glyph.who);
  }

  lemma SpellsWithout(glyphs: seq<Glyph>, d: Doc, d': Doc, k: nat)
    requires Spells(glyphs, d) && k < |glyphs| && d'.flat == Without(d.flat, k)
    requires forall x :: x in d.chars ==> x in d'.chars && d'.chars[x].value == d.chars[x].value
    ensures Spells(Without(glyphs, k), d')
  {
    forall i | 0 <= i < |d'.flat|
      ensures Without(glyphs, k)[i].who == d'.flat[i] && d'.flat[i] in d'.chars
      ensures d'.chars[d'.flat[i]].value == Without(glyphs, k)[i].value
    {
      var j := if i < k then i else i + 1;
      assert Without(glyphs, k)[i] == glyphs[j] && d'.flat[i] == d.flat[j];
    }
  }

  lemma SpellsRemove(glyphs: seq<Glyph>, d: Doc, k: nat)
    requires Spells(glyphs, d) && WellFormed(d) && 0 < k < |glyphs|
    ensures glyphs[k].who != ROOT && Live(d.chars, glyphs[k].who)
    ensures Spells(Without(glyphs, k), Remove(d, glyphs[k].who))
  {
    assert d.flat[0] != d.flat[k] && d.flat[k] in d.flat;
    EraseSplits(d.flat, k);
    SpellsWithout(glyphs, d, Remove(d, glyphs[k].who), k);
  }

  lemma TextInsert(glyphs: seq<Glyph>, k: nat, glyph: Glyph)
    requires k <= |glyphs|
    ensures Values(InsertAt(glyphs, k, glyph), ValueOf) == InsertAt(Values(glyphs, ValueOf), k, glyph.value)
    ensures k > 0 ==>
      Values(InsertAt(glyphs, k, glyph), ValueOf)[1..] == InsertAt(Values(glyphs, ValueOf)[1..], k - 1, glyph.value)
  {
    InsertShifts(glyphs, k, glyph);
    InsertShifts(Values(glyphs, ValueOf), k, glyph.value);
  }

  lemma TextWithout(glyphs: seq<Glyph>, k: nat)
    requires k < |glyphs|
    ensures Values(Without(glyphs, k), ValueOf) == Without(Values(glyphs, ValueOf), k)
    ensures k > 0 ==> Values(Without(glyphs, k), ValueOf)[1..] == Without(Values(glyphs, ValueOf)[1..], k - 1)
  {}

  // ----- The queue's part -----

  /** The queue has settled, and lists the glyphs. */
  ghost predicate Settled(queue: SharQueue, glyphs: seq<Glyph>)
    reads queue, queue.tree
  {
    queue.Valid() && Idle(queue.View()) && queue.anchored && Spells(glyphs, queue.View().doc)
  }

  /** The queue has taken `glyph` in as number `at`, and settled again. */
  ghost predicate TakesIn(q: State, q': State, glyphs: seq<Glyph>, at: nat, glyph: Glyph)
    requires at <= |glyphs|
  {
    Idle(q') && q'.anchored && q'.counter == q.counter + 1 && Spells(InsertAt(glyphs, at, glyph), q'.doc)
  }

  /** The glyphs that a document lists. */
  function Glyphs(d: Doc): (glyphs: seq<Glyph>)
    requires forall x :: x in d.flat ==> x in d.chars
    ensures |glyphs| == |d.flat|
    ensures forall i :: 0 <= i < |d.flat| ==>
      d.flat[i] in d.chars && glyphs[i] == Glyph(d.flat[i], d.chars[d.flat[i]].value)
  {
    seq(|d.flat|, i requires 0 <= i < |d.flat| =>
      assert d.flat[i] in d.flat; Glyph(d.flat[i], d.chars[d.flat[i]].value))
  }

  /** What the queue lists once it has settled. */
  ghost function Listed(queue: SharQueue): Option<seq<Glyph>>
    reads queue, queue.tree
  {
    if queue.Valid() && Idle(queue.View()) && queue.anchored then Some(Glyphs(queue.View().doc)) else None
  }

  lemma ListedIsSettled(queue: SharQueue, glyphs: seq<Glyph>)
    ensures Listed(queue) == Some(glyphs) <==> Settled(queue, glyphs)
  {
    if Settled(queue, glyphs) { SpellsGlyphs(glyphs, queue.View().doc); }
  }

  lemma SpellsGlyphs(glyphs: seq<Glyph>, d: Doc)
    requires Spells(glyphs, d) && forall x :: x in d.flat ==> x in d.chars
    ensures glyphs == Glyphs(d)
  {
    assert forall i :: 0 <= i < |glyphs| ==> glyphs[i] == Glyphs(d)[i];
  }

  lemma AddSettles(q: State, glyphs: seq<Glyph>, op: IdeAdd, parent: Ident, at: nat, glyph: Glyph)
    requires WellFormed(q.doc) && Within(q) && Idle(q) && q.anchored && q.counter < MAX_U32
    requires op.parent == ById(parent) && Spells(glyphs, q.doc) && 0 < at <= |glyphs| && glyphs[at - 1].who == parent
    requires glyph == Glyph(Ident(q.counter + 1, q.ids.peer), op.value)
    ensures Sound(q.doc) && IdeWithin(q.counter)(op)
    ensures TakesIn(q, AddIde(q, op), glyphs, at, glyph)
  {
    assert parent in q.doc.flat;
    ServeAdd(q, op, parent);
    SpellsInsert(glyphs, q.doc, AddIde(q, op).doc, at - 1, glyph, Relation(op.value, parent, false));
  }

  lemma RemoveSettles(q: State, glyphs: seq<Glyph>, row: nat, k: nat)
    requires WellFormed(q.doc) && Idle(q) && q.anchored && Spells(glyphs, q.doc) && 0 < k < |glyphs|
    ensures var q' := RemoveOp(q, glyphs[k].who, row, true);
      Idle(q') && q'.anchored && q'.counter == q.counter && Spells(Without(glyphs, k), q'.doc)
  {
    SpellsRemove(glyphs, q.doc, k);
  }

  /** Hands one insert to the queue and waits for its identity. */
  method Send(queue: SharQueue, op: IdeAdd, parent: Ident, ghost glyphs: seq<Glyph>,
              ghost at: nat) returns (glyph: Glyph)
    requires Listed(queue) == Some(glyphs) && queue.counter < MAX_U32
    requires op.parent == ById(parent) && 0 < at <= |glyphs| && glyphs[at - 1].who == parent
    modifies queue, queue.tree
    ensures glyph.value == op.value && Listed(queue) == Some(InsertAt(glyphs, at, glyph))
    ensures queue.counter == old(queue.counter) + 1
  {
    ListedIsSettled(queue, glyphs);
    ghost var q := queue.View();
    glyph := Glyph(Ident(queue.counter + 1, queue.peer), op.value);
    assert IdeWithin(queue.counter)(op) && AddIde(q, op).anchored by { AddSettles(q, glyphs, op, parent, at, glyph); }
    var who := queue.AddIdeOperation(op);
    glyph := Glyph(who, op.value);
    assert TakesIn(q, queue.View(), glyphs, at, glyph) by { AddSettles(q, glyphs, op, parent, at, glyph); }
    ListedIsSettled(queue, InsertAt(glyphs, at, glyph));
  }

  method SendRemove(queue: SharQueue, who: Ident, row: nat, ghost glyphs: seq<Glyph>, ghost k: nat)
    requires Listed(queue) == Some(glyphs) && 0 < k < |glyphs| && glyphs[k].who == who
    modifies queue, queue.tree
    ensures Listed(queue) == Some(Without(glyphs, k)) && queue.counter == old(queue.counter)
  {
    ListedIsSettled(queue, glyphs);
    RemoveSettles(queue.View(), glyphs, row, k);
    queue.RemoveIdeOperation(who, row);
    ListedIsSettled(queue, Without(glyphs, k));
  }

  // ----- Patches on plain strings -----

  /** Delete `dels` characters at `pos`, then insert `ins` there. */
  datatype Patch = Patch(pos: nat, dels: nat, ins: string)

  predicate Fits(text: string, p: Patch) {
    p.pos + p.dels <= |text|
  }

  function Patched(text: string, p: Patch): string
    requires Fits(text, p)
  {
    text[..p.pos] + p.ins + text[p.pos + p.dels..]
  }

  predicate AllFit(text: string, patches: seq<Patch>)
    decreases |patches|
  {
    patches == [] || (Fits(text, patches[0]) && AllFit(Patched(text, patches[0]), patches[1..]))
  }

  function AllPatched(text: string, patches: seq<Patch>): string
    requires AllFit(text, patches)
    decreases |patches|
  {
    if patches == [] then text else AllPatched(Patched(text, patches[0]), patches[1..])
  }

  /** Front and rest stay, and in between stands what was put in. */
  lemma PatchedAt(text: string, p: Patch, i: nat)
    requires Fits(text, p) && i < |Patched(text, p)|
    ensures |Patched(text, p)| + p.dels == |text| + |p.ins|
    ensures Patched(text, p)[i] ==
      if i < p.pos then text[i] else if i < p.pos + |p.ins| then p.ins[i - p.pos] else text[i - |p.ins| + p.dels]
  {}

  /** One patch after the other, every one of them. */
  lemma {:induction false} PatchesCompose(text: string, a: seq<Patch>, b: seq<Patch>)
    requires AllFit(text, a + b)
    ensures AllFit(text, a) && AllFit(AllPatched(text, a), b)
    ensures AllPatched(text, a + b) == AllPatched(AllPatched(text, a), b)
    decreases |a|
  {
    if a == [] {
      assert a + b == b;
    } else {
      assert (a + b)[1..] == a[1..] + b;
      PatchesCompose(Patched(text, a[0]), a[1..], b);
    }
  }

  lemma OnePatch(text: string, p: Patch)
    requires Fits(text, p)
    ensures AllFit(text, [p]) && AllPatched(text, [p]) == Patched(text, p)
  {
    assert [p][1..] == [];
  }

  function Inserts(patches: seq<Patch>): nat
    decreases |patches|
  {
    if patches == [] then 0 else |patches[0].ins| + Inserts(patches[1..])
  }

  // ----- The mirror -----

  /** The document on screen, without the sentinel. */
  function Screen(lines: seq<Line<Glyph>>): string {
    if lines == [] then "" else Values(Cells(lines), ValueOf)[1..]
  }

  ghost predicate Mirrors(queue: SharQueue, lines: seq<Line<Glyph>>)
    reads queue, queue.tree
  {
    LinesOk(lines, ValueOf) && Listed(queue) == Some(Cells(lines))
  }

  method PlaceGlyph(lines: seq<Line<Glyph>>, row: nat, col: nat, glyph: Glyph, ghost offset: nat, ghost at: nat)
    returns (lines': seq<Line<Glyph>>)
    requires LinesOk(lines, ValueOf) && At(lines, row, col, offset) && at == offset + 1 <= |Cells(lines)|
    ensures LinesOk(lines', ValueOf) && Cells(lines') == InsertAt(Cells(lines), at, glyph)
    ensures offset <= |Screen(lines)| && Screen(lines') == InsertAt(Screen(lines), offset, glyph.value)
  {
    lines' := Place(lines, row, col, glyph, ValueOf, at);
    ScreenInsert(lines, lines', offset, at, glyph);
  }

  lemma ScreenInsert(lines: seq<Line<Glyph>>, lines': seq<Line<Glyph>>, offset: nat, at: nat, glyph: Glyph)
    requires lines != [] && lines' != [] && at == offset + 1 <= |Cells(lines)|
    requires Cells(lines') == InsertAt(Cells(lines), at, glyph)
    ensures offset <= |Screen(lines)| && Screen(lines') == InsertAt(Screen(lines), offset, glyph.value)
  {
    TextInsert(Cells(lines), at, glyph);
  }

  /** The place behind `offset` characters and the glyph just before it. */
  method FindPlace(lines: seq<Line<Glyph>>, offset: nat) returns (found: Option<(nat, nat, Glyph)>)
    requires LinesOk(lines, ValueOf)
    ensures found.Some? <==> offset <= |Screen(lines)|
    ensures found.Some? ==> IsPlace(lines, offset, found.value)
  {
    var located := Locate(lines, offset);
    if located.None? {
      return None;
    }
    var (row, col) := located.value;
    BehindIsAt(lines, row, col, offset);
    return Some((row, col, Behind(lines[row], col)));
  }

  predicate IsPlace(lines: seq<Line<Glyph>>, offset: nat, place: (nat, nat, Glyph)) {
    && At(lines, place.0, place.1, offset) && offset <= |Screen(lines)| && offset < |Cells(lines)|
    && place.2 == Cells(lines)[offset]
  }

  predicate At(lines: seq<Line<Glyph>>, row: nat, col: nat, offset: nat) {
    row < |lines| && col <= |lines[row].cells| && Size(lines, row) + col == offset
  }

  method TakeGlyph(lines: seq<Line<Glyph>>, row: nat, col: nat, ghost offset: nat) returns (glyph: Glyph,
                   lines': seq<Line<Glyph>>)
    requires LinesOk(lines, ValueOf) && At(lines, row, col, offset) && (col < |lines[row].cells| || row + 1 < |lines|)
    ensures LinesOk(lines', ValueOf) && CutsAt(Cells(lines), offset + 1, glyph, Cells(lines'))
    ensures offset < |Screen(lines)| && Screen(lines') == Without(Screen(lines), offset)
  {
    glyph, lines' := Take(lines, row, col, ValueOf, offset + 1);
    TextWithout(Cells(lines), offset + 1);
  }

  /** The glyph behind `offset` characters, the row to look for it in, and the lines without it. */
  method CutGlyph(lines: seq<Line<Glyph>>, offset: nat) returns (cut: Option<(Glyph, nat, seq<Line<Glyph>>)>)
    requires LinesOk(lines, ValueOf)
    ensures cut.None? <==> offset >= |Screen(lines)|
    ensures cut.Some? ==>
      LinesOk(cut.value.2, ValueOf) && CutsAt(Cells(lines), offset + 1, cut.value.0, Cells(cut.value.2))
    ensures cut.Some? ==> offset < |Screen(lines)| && Screen(cut.value.2) == Without(Screen(lines), offset)
  {
    var located := LocateNext(lines, offset);
    if located.None? {
      return None;
    }
    var (row, col) := located.value;
    var hint := if col < |lines[row].cells| then row else row + 1;
    var glyph, rest := TakeGlyph(lines, row, col, offset);
    return Some((glyph, hint, rest));
  }

  predicate CutsAt(glyphs: seq<Glyph>, k: nat, glyph: Glyph, rest: seq<Glyph>) {
    k < |glyphs| && glyphs[k] == glyph && rest == Without(glyphs, k)
  }

  /** The lines after a change that may not have been possible. */
  function Now(lines: seq<Line<Glyph>>, changed: Option<seq<Line<Glyph>>>): seq<Line<Glyph>> {
    if changed.Some? then changed.value else lines
  }

  /** The queue takes the character in behind the glyph at `place`; then the screen does. */
  method TypeAt(queue: SharQueue, lines: seq<Line<Glyph>>, place: (nat, nat, Glyph), ghost offset: nat,
                value: char, tag: u32)
    returns (lines': seq<Line<Glyph>>)
    requires Mirrors(queue, lines) && queue.counter < MAX_U32
    requires IsPlace(lines, offset, place)
    modifies queue, queue.tree
    ensures Mirrors(queue, lines') && queue.counter == old(queue.counter) + 1
    ensures offset <= |Screen(lines)| && Screen(lines') == InsertAt(Screen(lines), offset, value)
  {
    var (row, col, parent) := place;
    ghost var at := offset + 1;
    var glyph := Send(queue, IdeAdd(ById(parent.who), value, tag, row), parent.who, Cells(lines), at);
    lines' := PlaceGlyph(lines, row, col, glyph, offset, at);
  }

  /** Types `value` behind `offset` characters, in the queue and on screen. The program stops when
      the document is shorter than that. */
  method InsertChar(queue: SharQueue, lines: seq<Line<Glyph>>, offset: nat, value: char, nextTag: u32)
    returns (lines': Option<seq<Line<Glyph>>>, nextTag': u32)
    requires Mirrors(queue, lines) && queue.counter < MAX_U32 && nextTag < MAX_U32
    modifies queue, queue.tree
    ensures lines'.None? <==> offset > |Screen(lines)|
    ensures Mirrors(queue, Now(lines, lines'))
    ensures lines'.None? ==> queue.counter == old(queue.counter) && nextTag' == nextTag
    ensures lines'.Some? ==> Screen(lines'.value) == InsertAt(Screen(lines), offset, value)
    ensures lines'.Some? ==> queue.counter == old(queue.counter) + 1 && nextTag' == nextTag + 1
  {
    lines', nextTag' := None, nextTag;
    var found := FindPlace(lines, offset);
    if found.Some? {
      var typed := TypeAt(queue, lines, found.value, offset, value, nextTag);
      lines' := Some(typed);
      nextTag' := nextTag + 1;
    }
  }

  /** Deletes the character behind `offset` characters, on screen and in the queue. */
  method RemoveChar(queue: SharQueue, lines: seq<Line<Glyph>>, offset: nat) returns (lines': Option<seq<Line<Glyph>>>)
    requires Mirrors(queue, lines)
    modifies queue, queue.tree
    ensures lines'.None? <==> offset >= |Screen(lines)|
    ensures Mirrors(queue, Now(lines, lines')) && queue.counter == old(queue.counter)
    ensures lines'.Some? ==> Screen(lines'.value) == Without(Screen(lines), offset)
  {
    var cut := CutGlyph(lines, offset);
    if cut.None? {
      return None;
    }
    var (glyph, hint, rest) := cut.value;
    SendRemove(queue, glyph.who, hint, Cells(lines), offset + 1);
    return Some(rest);
  }

  // ----- Replaying a trace -----

  function Cleared(text: string, pos: nat, dels: nat): string
    requires pos + dels <= |text|
  {
    text[..pos] + text[pos + dels..]
  }

  /** `i` characters have been deleted at `pos`. */
  predicate Cut(text: string, pos: nat, i: nat, now: string) {
    pos + i <= |text| && now == Cleared(text, pos, i)
  }

  lemma CutNone(text: string, pos: nat)
    requires pos <= |text|
    ensures Cut(text, pos, 0, text)
  {}

  lemma CutOne(text: string, pos: nat, i: nat, now: string)
    requires Cut(text, pos, i, now) && pos + i < |text|
    ensures pos < |now| && Cut(text, pos, i + 1, Without(now, pos))
  {}

  /** `i` characters of the patch have been typed. */
  predicate Typed(text: string, p: Patch, i: nat, now: string) {
    Fits(text, p) && i <= |p.ins| && now == text[..p.pos] + p.ins[..i] + text[p.pos + p.dels..]
  }

  lemma TypeOne(text: string, p: Patch, i: nat, now: string)
    requires Typed(text, p, i, now) && i < |p.ins|
    ensures p.pos + i <= |now| && Typed(text, p, i + 1, InsertAt(now, p.pos + i, p.ins[i]))
  {
    assert now[..p.pos + i] == text[..p.pos] + p.ins[..i];
    assert now[p.pos + i..] == text[p.pos + p.dels..];
    assert p.ins[..i + 1] == p.ins[..i] + [p.ins[i]];
  }

  lemma TypedFrom(text: string, p: Patch, now: string)
    requires Fits(text, p)
    ensures now == Cleared(text, p.pos, p.dels) ==> Typed(text, p, 0, now)
    ensures Typed(text, p, |p.ins|, now) ==> now == Patched(text, p)
  {
    assert p.ins[..|p.ins|] == p.ins;
  }

  /** Deletes, then inserts, one character at a time. */
  method Apply(queue: SharQueue, lines: seq<Line<Glyph>>, p: Patch, nextTag: u32) returns (lines': seq<Line<Glyph>>,
               nextTag': u32)
    requires Mirrors(queue, lines) && Fits(Screen(lines), p)
    requires queue.counter + |p.ins| <= MAX_U32 && nextTag + |p.ins| <= MAX_U32
    modifies queue, queue.tree
    ensures Mirrors(queue, lines') && Screen(lines') == Patched(Screen(lines), p)
    ensures queue.counter == old(queue.counter) + |p.ins| && nextTag' == nextTag + |p.ins|
  {
    ghost var text := Screen(lines);
    lines' := Deletes(queue, lines, p.pos, p.dels);
    nextTag' := nextTag;
    TypedFrom(text, p, Screen(lines'));
    var i := 0;
    while i < |p.ins|
      invariant 0 <= i <= |p.ins| && queue.counter == old(queue.counter) + i && nextTag' == nextTag + i
      invariant Mirrors(queue, lines') && Typed(text, p, i, Screen(lines'))
    {
      ghost var now := Screen(lines');
      var place := p.pos + i;
      var typed;
      TypeOne(text, p, i, now);
      typed, nextTag' := InsertChar(queue, lines', place, p.ins[i], nextTag');
      lines' := typed.value;
      i := i + 1;
    }
    TypedFrom(text, p, Screen(lines'));
  }

  method Deletes(queue: SharQueue, lines: seq<Line<Glyph>>, pos: nat, dels: nat) returns (lines': seq<Line<Glyph>>)
    requires Mirrors(queue, lines) && pos + dels <= |Screen(lines)|
    modifies queue, queue.tree
    ensures Mirrors(queue, lines') && Screen(lines') == Cleared(Screen(lines), pos, dels)
    ensures queue.counter == old(queue.counter)
  {
    ghost var text := Screen(lines);
    lines' := lines;
    var i := 0;
    CutNone(text, pos);
    while i < dels
      invariant 0 <= i <= dels && queue.counter == old(queue.counter)
      invariant Mirrors(queue, lines') && Cut(text, pos, i, Screen(lines'))
    {
      CutOne(text, pos, i, Screen(lines'));
      var rest := RemoveChar(queue, lines', pos);
      lines' := rest.value;
      i := i + 1;
    }
  }

  method ApplyAll(queue: SharQueue, lines: seq<Line<Glyph>>, patches: seq<Patch>,
                  tag: u32) returns (lines': seq<Line<Glyph>>)
    requires Mirrors(queue, lines) && AllFit(Screen(lines), patches)
    requires queue.counter + Inserts(patches) <= MAX_U32 && tag + Inserts(patches) <= MAX_U32
    modifies queue, queue.tree
    ensures Mirrors(queue, lines') && Screen(lines') == AllPatched(Screen(lines), patches)
  {
    lines' := lines;
    var nextTag: u32, todo := tag, patches;
    while todo != []
      invariant Mirrors(queue, lines') && AllFit(Screen(lines'), todo)
      invariant AllPatched(Screen(lines'), todo) == AllPatched(Screen(lines), patches)
      invariant queue.counter + Inserts(todo) <= MAX_U32 && nextTag + Inserts(todo) <= MAX_U32
    {
      lines', nextTag := Apply(queue, lines', todo[0], nextTag);
      todo := todo[1..];
    }
  }

  /** A queue with an empty file, and one empty line. */
  method Start(peer: u32) returns (queue: SharQueue, lines: seq<Line<Glyph>>)
    ensures Mirrors(queue, lines) && Screen(lines) == "" && queue.counter == 0 && fresh(queue) && fresh(queue.tree)
  {
    queue := new SharQueue("", peer);
    lines := [Line(Glyph(ROOT, '\0'), [])];
    CellsOne(lines[0]);
    ListedIsSettled(queue, Cells(lines));
  }

  /** Any trace with offsets in range: the screen, and the server's text behind the sentinel, end up
      as the plain string that the patches make. */
  method Replay(patches: seq<Patch>, peer: u32) returns (queue: SharQueue, lines: seq<Line<Glyph>>)
    requires AllFit("", patches) && Inserts(patches) <= MAX_U32
    ensures Mirrors(queue, lines) && Screen(lines) == AllPatched("", patches)
    ensures ServerText(queue.View().doc) == ['\0'] + AllPatched("", patches)
  {
    queue, lines := Start(peer);
    lines := ApplyAll(queue, lines, patches, 0);
    ListedIsSettled(queue, Cells(lines));
    SpellsText(Cells(lines), queue.View().doc);
    RootFirst(queue.View().doc);
  }

  lemma RootFirst(d: Doc)
    requires WellFormed(d)
    ensures ServerText(d)[0] == '\0'
  {
    assert d.flat[0] in d.flat;
  }
}
