/** What a tie-break under tombstones walks past: one run of elder siblings for each link of the
    chain of tombstones, from the top. */
module Climb {
  import opened Types
  import opened CharTree
  import opened Lists
  import opened Document
  import opened Shape
  import opened TreeOrder

  /** From the nearest live node down to `c`. */
  ghost function Links(chars: Chars, c: Ident): (links: seq<Ident>)
    requires Rooted(chars) && c in chars
    ensures links != [] && links[|links| - 1] == c && links[0] == Home(chars, c)
    decreases Ranks(chars)[c]
  {
    if !chars[c].deleted then [c] else Links(chars, chars[c].parent) + [c]
  }

  /** A link hangs from the one before it, and all but the first are tombstones. */
  ghost predicate Hanging(chars: Chars, links: seq<Ident>) {
    forall i :: 0 < i < |links| ==>
      links[i] in chars && chars[links[i]].deleted && chars[links[i]].parent == links[i - 1]
  }

  lemma {:induction false} LinksHang(chars: Chars, c: Ident)
    requires Rooted(chars) && c in chars
    ensures Hanging(chars, Links(chars, c))
    decreases Ranks(chars)[c]
  {
    if chars[c].deleted { LinksHang(chars, chars[c].parent); }
  }

  /** From `i` up to `j` the list shows children of `upper` that outrank `lower`, and no more follow. */
  ghost predicate MaximalRun(d: Doc, i: nat, j: nat, upper: Ident, lower: Ident) {
    && i <= j <= |d.flat| && (forall k :: i <= k < j ==> Skips(d.chars, d.flat[k], upper, lower))
    && (j < |d.flat| ==> !Skips(d.chars, d.flat[j], upper, lower))
  }

  /** `cuts` splits the list behind the first link into one run for each further link. */
  ghost predicate Cuts(d: Doc, links: seq<Ident>, cuts: seq<nat>) {
    && links != [] && |cuts| == |links| && links[0] in d.flat && cuts[0] == IndexOf(d.flat, links[0]) + 1
    && forall i :: 0 < i < |links| ==> MaximalRun(d, cuts[i - 1], cuts[i], links[i - 1], links[i])
  }

  lemma CutsGrow(d: Doc, links: seq<Ident>, cuts: seq<nat>, c: Ident, j: nat)
    requires Cuts(d, links, cuts) && MaximalRun(d, cuts[|cuts| - 1], j, links[|links| - 1], c)
    ensures Cuts(d, links + [c], cuts + [j])
  {}

  lemma {:induction false} ClimbCuts(d: Doc, c: Ident) returns (cuts: seq<nat>)
    requires WellFormed(d) && c in d.chars && !ReachesRoot(d.chars, c)
    ensures Cuts(d, Links(d.chars, c), cuts) && cuts[|cuts| - 1] == Start(d, c)
    decreases Ranks(d.chars)[c]
  {
    if !d.chars[c].deleted {
      cuts := [IndexOf(d.flat, c) + 1];
    } else {
      ClimbIsScan(d, c);
      var above := ClimbCuts(d, d.chars[c].parent);
      CutsGrow(d, Links(d.chars, d.chars[c].parent), above, c, Start(d, c));
      cuts := above + [Start(d, c)];
    }
  }

  /** An anchored character lands behind its nearest live ancestor. What lies in between splits into
      consecutive maximal runs, one for each link of the chain down to the character itself. */
  lemma ClimbRuns(d: Doc, crdt: Crdt) returns (cuts: seq<nat>)
    requires WellFormed(d) && Lands(d.chars, crdt) && Anchored(d.chars, crdt) && !IsLineBreak(crdt.relation.value)
    ensures var links := Links(d.chars, crdt.relation.parent) + [crdt.who];
      Cuts(d, links, cuts) && links[0] == Home(d.chars, crdt.relation.parent) && cuts[|cuts| - 1] == Slot(d, crdt)
    ensures Hanging(d.chars, Links(d.chars, crdt.relation.parent))
    ensures Inserted(d, crdt).flat == InsertAt(d.flat, cuts[|cuts| - 1], crdt.who)
  {
    var above := ClimbCuts(d, crdt.relation.parent);
    var up := Links(d.chars, crdt.relation.parent);
    assert Hanging(d.chars, up) by { LinksHang(d.chars, crdt.relation.parent); }
    CutsGrow(d, up, above, crdt.who, Slot(d, crdt));
    cuts := above + [Slot(d, crdt)];
    AnchoredAddKeepsWellFormed(d, crdt);
  }
}
