/** The preorder walk itself, written out, and the proof that it is the one faithful list. */
module Walk {
  import opened Types
  import opened CharTree
  import opened Lists
  import opened Document
  import opened TreeOrder

  function Children(chars: Chars, x: Ident): set<Ident> {
    set y | y in chars && y != ROOT && chars[y].parent == x
  }

  ghost predicate Leads(m: Ident, s: set<Ident>) {
    m in s && forall y :: y in s && y != m ==> Outranks(m, y)
  }

  lemma HasLeader(s: set<Ident>)
    requires s != {}
    ensures exists m :: Leads(m, s)
  {
    var x :| x in s;
    if s == {x} {
      assert Leads(x, s);
    } else {
      HasLeader(s - {x});
      var m :| Leads(m, s - {x});
      assert forall y :: y in s ==> y == x || y in s - {x};
      if Outranks(x, m) { assert Leads(x, s); } else { assert Leads(m, s); }
    }
  }

  /** The members of `s` in outranking order. */
  ghost function Ranked(s: set<Ident>): (r: seq<Ident>)
    ensures forall y :: y in r <==> y in s
  {
    if s == {} then [] else
      HasLeader(s);
      var m :| Leads(m, s);
      [m] + Ranked(s - {m})
  }

  lemma {:induction false} RankedIsPairwise(s: set<Ident>)
    ensures Pairwise(Ranked(s), Outranks)
  {
    if s != {} {
      HasLeader(s);
      var m :| Leads(m, s) && Ranked(s) == [m] + Ranked(s - {m});
      RankedIsPairwise(s - {m});
      PairwiseConcat([m], Ranked(s - {m}), Outranks);
    }
  }

  /** The nodes that rank above `x`, its descendants among them: fewer for every child. */
  ghost function Higher(chars: Chars, x: Ident): set<Ident>
    requires Rooted(chars) && x in chars
  {
    set y | y in chars && Ranks(chars)[y] > Ranks(chars)[x]
  }

  ghost function WalkFrom(chars: Chars, x: Ident): seq<Ident>
    requires Rooted(chars) && x in chars
    decreases Higher(chars, x), 1, 0
  {
    (if chars[x].deleted then [] else [x]) + WalkEach(chars, x, Ranked(Children(chars, x)))
  }

  ghost function WalkEach(chars: Chars, x: Ident, kids: seq<Ident>): seq<Ident>
    requires Rooted(chars) && x in chars && forall k :: k in kids ==> k in Children(chars, x)
    decreases Higher(chars, x), 0, |kids|
  {
    if kids == [] then [] else
      assert kids[0] in Children(chars, x) && kids[0] in Higher(chars, x);
      WalkFrom(chars, kids[0]) + WalkEach(chars, x, kids[1..])
  }

  /** The walk below `x` lists the live nodes at and below `x`. */
  lemma {:induction false} WalkFromElements(chars: Chars, x: Ident, y: Ident)
    requires Rooted(chars) && x in chars
    ensures y in WalkFrom(chars, x) <==> Live(chars, y) && Path(chars, x) <= Path(chars, y)
    decreases Higher(chars, x), 1, 0
  {
    var kids := Ranked(Children(chars, x));
    WalkEachElements(chars, x, kids, y);
    if Live(chars, y) && Path(chars, x) < Path(chars, y) {
      var k := BranchOf(chars, x, y);
    }
  }

  lemma {:induction false} WalkEachElements(chars: Chars, x: Ident, kids: seq<Ident>, y: Ident)
    requires Rooted(chars) && x in chars && forall k :: k in kids ==> k in Children(chars, x)
    ensures y in WalkEach(chars, x, kids) <==>
      Live(chars, y) && exists k :: k in kids && Path(chars, k) <= Path(chars, y)
    decreases Higher(chars, x), 0, |kids|
  {
    if kids != [] {
      assert kids[0] in Children(chars, x) && kids[0] in Higher(chars, x);
      WalkFromElements(chars, kids[0], y);
      WalkEachElements(chars, x, kids[1..], y);
    }
  }

  /** The node at depth `k` of a path has the path up to there. */
  lemma {:induction false} PathStep(chars: Chars, y: Ident, k: nat)
    requires Rooted(chars) && y in chars && k < |Path(chars, y)|
    ensures Path(chars, y)[k] in chars && Path(chars, Path(chars, y)[k]) == Path(chars, y)[..k + 1]
    decreases Ranks(chars)[y]
  {
    if k < |Path(chars, y)| - 1 { PathStep(chars, chars[y].parent, k); }
  }

  /** The child of `x` through which `y` descends from `x`. */
  lemma BranchOf(chars: Chars, x: Ident, y: Ident) returns (k: Ident)
    requires Rooted(chars) && x in chars && y in chars && Path(chars, x) < Path(chars, y)
    ensures k in Children(chars, x) && Path(chars, k) == Path(chars, x) + [k] && Path(chars, k) <= Path(chars, y)
    ensures k == Path(chars, y)[|Path(chars, x)|]
  {
    var n := |Path(chars, x)|;
    k := Path(chars, y)[n];
    PathStep(chars, y, n);
    PathStep(chars, k, n - 1);
    assert Path(chars, k) == Path(chars, x) + [k];
    assert Path(chars, k)[n - 1] == x;
    assert |Path(chars, ROOT)| == 1;
    var q := chars[k].parent;
    assert Path(chars, q) == Path(chars, x);
    assert q == Path(chars, q)[n - 1];
  }

  lemma PairwiseConcat<T(!new)>(a: seq<T>, b: seq<T>, r: (T, T) -> bool)
    requires Pairwise(a, r) && Pairwise(b, r)
    requires forall x, y :: x in a && y in b ==> r(x, y)
    ensures Pairwise(a + b, r)
  {}

  /** Descendants of an elder child come before descendants of a younger one. */
  lemma BranchesInOrder(chars: Chars, x: Ident, k: Ident, l: Ident, u: Ident, v: Ident)
    requires Rooted(chars) && x in chars && k in Children(chars, x) && l in Children(chars, x) && Outranks(k, l)
    requires u in chars && v in chars && Path(chars, k) <= Path(chars, u) && Path(chars, l) <= Path(chars, v)
    ensures Before(chars, u, v)
  {
    var p, n := Path(chars, x), |Path(chars, x)|;
    var pu, pv := Path(chars, u), Path(chars, v);
    assert Path(chars, k) == p + [k] && Path(chars, l) == p + [l];
    assert Path(chars, k)[n] == k && Path(chars, l)[n] == l;
    PrecedesCommon(p, pu[n..], pv[n..]);
    assert pu == p + pu[n..] && pv == p + pv[n..];
  }

  lemma ParentFirst(chars: Chars, x: Ident, kids: seq<Ident>, y: Ident)
    requires Rooted(chars) && x in chars && (forall k :: k in kids ==> k in Children(chars, x))
    requires y in WalkEach(chars, x, kids)
    ensures y in chars && Before(chars, x, y)
  {
    WalkEachElements(chars, x, kids, y);
    var k :| k in kids && Path(chars, k) <= Path(chars, y);
    assert k in Children(chars, x);
    assert Path(chars, k) == Path(chars, x) + [k];
    PrefixPrecedes(Path(chars, x), Path(chars, y));
  }

  lemma ElderBranchFirst(chars: Chars, x: Ident, k: Ident, rest: seq<Ident>, u: Ident, v: Ident)
    requires Rooted(chars) && x in chars && k in Children(chars, x)
    requires (forall l :: l in rest ==> l in Children(chars, x))
    requires (forall l :: l in rest ==> Outranks(k, l)) && u in WalkFrom(chars, k) && v in WalkEach(chars, x, rest)
    ensures u in chars && v in chars && Before(chars, u, v)
  {
    WalkFromElements(chars, k, u);
    WalkEachElements(chars, x, rest, v);
    var l :| l in rest && Path(chars, l) <= Path(chars, v);
    BranchesInOrder(chars, x, k, l, u, v);
  }

  lemma HeadOutranks(kids: seq<Ident>)
    requires kids != [] && Pairwise(kids, Outranks)
    ensures Pairwise(kids[1..], Outranks) && forall l :: l in kids[1..] ==> Outranks(kids[0], l) && l in kids
  {
    forall l | l in kids[1..] ensures Outranks(kids[0], l) && l in kids {
      var i :| 0 <= i < |kids[1..]| && kids[1..][i] == l;
      assert kids[i + 1] == l;
    }
  }

  lemma {:induction false} WalkFromInOrder(chars: Chars, x: Ident)
    requires Rooted(chars) && x in chars
    ensures Pairwise(WalkFrom(chars, x), InOrder(chars))
    decreases Higher(chars, x), 1, 0
  {
    var kids := Ranked(Children(chars, x));
    RankedIsPairwise(Children(chars, x));
    WalkEachInOrder(chars, x, kids);
    var a, b := if chars[x].deleted then [] else [x], WalkEach(chars, x, kids);
    forall u, y | u in a && y in b ensures InOrder(chars)(u, y) { ParentFirst(chars, x, kids, y); }
    PairwiseConcat(a, b, InOrder(chars));
  }

  lemma {:induction false} WalkEachInOrder(chars: Chars, x: Ident, kids: seq<Ident>)
    requires Rooted(chars) && x in chars && forall k :: k in kids ==> k in Children(chars, x)
    requires Pairwise(kids, Outranks)
    ensures Pairwise(WalkEach(chars, x, kids), InOrder(chars))
    decreases Higher(chars, x), 0, |kids|
  {
    if kids != [] {
      assert kids[0] in Children(chars, x) && kids[0] in Higher(chars, x);
      HeadOutranks(kids);
      WalkFromInOrder(chars, kids[0]);
      WalkEachInOrder(chars, x, kids[1..]);
      var a, b := WalkFrom(chars, kids[0]), WalkEach(chars, x, kids[1..]);
      forall u, v | u in a && v in b ensures InOrder(chars)(u, v) {
        ElderBranchFirst(chars, x, kids[0], kids[1..], u, v);
      }
      PairwiseConcat(a, b, InOrder(chars));
    }
  }

  /** A document is faithful exactly when its list is the preorder walk from the sentinel,
      siblings in outranking order, tombstones left out. */
  lemma FaithfulIsWalk(d: Doc)
    requires Rooted(d.chars)
    ensures Faithful(d) <==> d.flat == WalkFrom(d.chars, ROOT)
  {
    var w := Doc(d.chars, WalkFrom(d.chars, ROOT));
    WalkFromInOrder(d.chars, ROOT);
    forall y ensures y in w.flat <==> Live(d.chars, y) {
      WalkFromElements(d.chars, ROOT, y);
      if y in d.chars { assert Path(d.chars, ROOT) == [ROOT] <= Path(d.chars, y); }
    }
    if Faithful(d) { FaithfulIsUnique(d, w); }
  }
}
