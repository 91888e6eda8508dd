/** Loading a text and reading it back row by row. */
module Loading {
  import opened Types
  import opened Lists
  import opened Document
  import opened Rows
  import opened SharFileModule

  function Letters(row: seq<(Ident, char)>): (text: string)
    ensures |text| == |row| && forall c :: 0 <= c < |row| ==> text[c] == row[c].1
  {
    seq(|row|, c requires 0 <= c < |row| => row[c].1)
  }

  /** The characters of all rows, in reading order. */
  function Reading(rows: seq<seq<(Ident, char)>>): string {
    if rows == [] then "" else Letters(rows[0]) + Reading(rows[1..])
  }

  /** The characters that a list of identities stands for. */
  function Spelling(chars: Chars, list: seq<Ident>): (text: string)
    requires forall x :: x in list ==> x in chars
    ensures |text| == |list| && forall i :: 0 <= i < |list| ==> text[i] == chars[list[i]].value
  {
    seq(|list|, i requires 0 <= i < |list| => chars[list[i]].value)
  }

  ghost predicate AllRecorded(chars: Chars, rows: Projection) {
    forall r :: 0 <= r < |rows| ==> RowRecorded(chars, rows, r)
  }

  lemma AllRecordedTail(chars: Chars, rows: Projection)
    requires rows != [] && AllRecorded(chars, rows)
    ensures AllRecorded(chars, rows[1..]) && WithValues(chars, rows)[1..] == WithValues(chars, rows[1..])
  {
    forall r | 0 <= r < |rows[1..]| ensures RowRecorded(chars, rows[1..], r) { assert RowRecorded(chars, rows, r + 1); }
  }

  /** Reading row by row is reading the flat list. */
  lemma {:induction false} ReadingIsSpelling(chars: Chars, rows: Projection)
    requires AllRecorded(chars, rows)
    ensures forall x :: x in Flat(rows) ==> x in chars
    ensures Reading(WithValues(chars, rows)) == Spelling(chars, Flat(rows))
  {
    if rows != [] {
      AllRecordedTail(chars, rows);
      ReadingIsSpelling(chars, rows[1..]);
      assert RowRecorded(chars, rows, 0);
      assert Letters(WithValues(chars, rows)[0]) == Spelling(chars, rows[0]);
      SpellingConcat(chars, rows[0], Flat(rows[1..]));
    }
  }

  lemma SpellingConcat(chars: Chars, a: seq<Ident>, b: seq<Ident>)
    requires (forall x :: x in a ==> x in chars) && forall x :: x in b ==> x in chars
    ensures Spelling(chars, a + b) == Spelling(chars, a) + Spelling(chars, b)
  {}

  lemma FileIsRecorded(rows: Projection, d: Doc)
    requires Represents(rows, d)
    ensures AllRecorded(d.chars, rows)
  {
    forall r | 0 <= r < |rows| ensures RowRecorded(d.chars, rows, r) { RowIsRecorded(d.chars, rows, r); }
  }

  /** A line break heads a row, and only line breaks head rows behind the first. */
  lemma BreaksHeadRows(rows: Projection, d: Doc, i: nat)
    requires Represents(rows, d) && 0 < i < |d.flat|
    ensures Breaks(d.chars, d.flat[i]) <==> exists r :: 1 <= r < |rows| && Offset(rows, r) == i
  {
    if r :| 1 <= r < |rows| && Offset(rows, r) == i { RowElement(rows, r, 0); }
    if Breaks(d.chars, d.flat[i]) {
      FlatElements(rows, d.flat[i]);
      var r :| 0 <= r < |rows| && d.flat[i] in rows[r];
      var c := IndexOf(rows[r], d.flat[i]);
      AtSpot(rows, (r, c), d.flat[i]);
      IndexUnique(d.flat, i);
      assert c == 0;
    }
  }

  lemma ChainLetter(text: string, counter: nat, i: nat)
    requires counter + |text| <= MAX_U32 && i <= |text|
    ensures var d := Chain(text, counter);
      |d.flat| == |text| + 1 && d.flat[i] in d.chars &&
        d.chars[d.flat[i]].value == if i == 0 then ROOT_RELATION.value else text[i - 1]
  {
    ChainIsLoaded(text, counter);
    if i > 0 { ChainReadsBack(text, counter, i); }
  }

  lemma ChainSpells(text: string, counter: nat, d: Doc)
    requires counter + |text| <= MAX_U32 && d == Chain(text, counter) && forall x :: x in d.flat ==> x in d.chars
    ensures Spelling(d.chars, d.flat) == [ROOT_RELATION.value] + text
  {
    ChainLetter(text, counter, 0);
    forall i | 0 <= i < |d.flat| ensures Spelling(d.chars, d.flat)[i] == ([ROOT_RELATION.value] + text)[i] {
      ChainLetter(text, counter, i);
    }
  }

  /** A row starts at place `i` of the flat list. */
  predicate RowStartsAt(rows: Projection, i: nat) {
    exists r :: 1 <= r < |rows| && Offset(rows, r) == i
  }

  lemma BreakStartsRow(rows: Projection, text: string, counter: nat, i: nat)
    requires counter + |text| <= MAX_U32 && Represents(rows, Chain(text, counter)) && 0 < i <= |text|
    ensures IsLineBreak(text[i - 1]) <==> RowStartsAt(rows, i)
  {
    ChainReadsBack(text, counter, i);
    BreaksHeadRows(rows, Chain(text, counter), i);
  }

  /** Whatever the text and the starting counter: reading the loaded file row by row gives the
      sentinel and then exactly the text, with a row starting at each line break and nowhere else. */
  lemma LoadedReadsBack(rows: Projection, text: string, counter: nat)
    requires counter + |text| <= MAX_U32 && Represents(rows, Chain(text, counter))
    ensures AllRecorded(Chain(text, counter).chars, rows)
    ensures Reading(WithValues(Chain(text, counter).chars, rows)) == [ROOT_RELATION.value] + text
    ensures forall i :: 0 < i <= |text| ==>
      (RowStartsAt(rows, i) <==>
        text[i - 1] in {'\n', '\r', '\U{0B}', '\U{0C}', '\U{85}', '\U{2028}', '\U{2029}'})
  {
    FileIsRecorded(rows, Chain(text, counter));
    ReadingIsSpelling(Chain(text, counter).chars, rows);
    ChainSpells(text, counter, Chain(text, counter));
    forall i | 0 < i <= |text|
      ensures RowStartsAt(rows, i) <==>
        text[i - 1] in {'\n', '\r', '\U{0B}', '\U{0C}', '\U{85}', '\U{2028}', '\U{2029}'}
    {
      BreakStartsRow(rows, text, counter, i);
    }
  }

  /** Loads a text into a new file and reads it as a freshly joined editor does. */
  method LoadAndRead(text: string, counter: u32) returns (file: SharFile, shown: seq<seq<(Ident, char)>>)
    requires counter + |text| <= MAX_U32
    ensures fresh(file) && file.Valid() && file.View() == Chain(text, counter)
    ensures Reading(shown) == [ROOT_RELATION.value] + text
  {
    file := new SharFile();
    var _ := file.AddFile(text, counter);
    LoadedReadsBack(file.projection, text, counter);
    shown := file.IdentitiesWithValues();
  }
}
