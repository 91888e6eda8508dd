/** The tree that the parent pointers of `characters` form, and the order in which a preorder
    walk with siblings in outranking order meets its nodes. */
module CharTree {
  import opened Types

  // ----- Comparing root-to-node paths -----

  /** Preorder on paths: a prefix comes first; otherwise the outranking branch does. */
  ghost predicate Precedes(s: seq<Ident>, t: seq<Ident>) {
    t != [] && (s == [] || (if s[0] == t[0] then Precedes(s[1..], t[1..]) else Outranks(s[0], t[0])))
  }

  lemma PrecedesStrict(s: seq<Ident>, t: seq<Ident>)
    ensures !(Precedes(s, t) && Precedes(t, s))
    ensures s != t ==> Precedes(s, t) || Precedes(t, s)
  {
    if s != [] && t != [] && s[0] == t[0] {
      PrecedesStrict(s[1..], t[1..]);
      assert s == [s[0]] + s[1..] && t == [t[0]] + t[1..];
    }
  }

  lemma PrecedesTransitive(s: seq<Ident>, t: seq<Ident>, u: seq<Ident>)
    requires Precedes(s, t) && Precedes(t, u)
    ensures Precedes(s, u)
  {
    if s != [] && s[0] == t[0] == u[0] {
      PrecedesTransitive(s[1..], t[1..], u[1..]);
    }
  }

  lemma {:induction false} PrecedesCommon(s: seq<Ident>, u: seq<Ident>, v: seq<Ident>)
    ensures Precedes(s + u, s + v) <==> Precedes(u, v)
  {
    if s == [] {
      assert s + u == u && s + v == v;
    } else {
      PrecedesCommon(s[1..], u, v);
      assert (s + u)[1..] == s[1..] + u && (s + v)[1..] == s[1..] + v;
    }
  }

  lemma PrefixPrecedes(s: seq<Ident>, t: seq<Ident>)
    requires s < t
    ensures Precedes(s, t)
  {
    PrecedesCommon(s, [], t[|s|..]);
    assert s + [] == s && s + t[|s|..] == t;
  }

  /** What lies between a node and one of its descendants descends from the node. */
  lemma {:induction false} Sandwich(a: seq<Ident>, y: seq<Ident>, z: seq<Ident>)
    requires a <= z && Precedes(a, y) && Precedes(y, z)
    ensures a < y
  {
    if a != [] {
      assert a[0] == z[0];
      assert y[0] == a[0];
      Sandwich(a[1..], y[1..], z[1..]);
      assert a == [a[0]] + a[1..] && y == [y[0]] + y[1..];
    }
  }

  // ----- The tree -----

  /** Parents are recorded and rank below their children. */
  ghost predicate IsRank(chars: Chars, rank: map<Ident, nat>) {
    rank.Keys == chars.Keys &&
    forall x | x in chars && x != ROOT :: chars[x].parent in chars && rank[chars[x].parent] < rank[x]
  }

  /** `characters` is a tree that hangs from the live sentinel. */
  ghost predicate Rooted(chars: Chars) {
    ROOT in chars && chars[ROOT] == ROOT_RELATION && exists rank :: IsRank(chars, rank)
  }

  ghost function Ranks(chars: Chars): (rank: map<Ident, nat>)
    requires Rooted(chars)
    ensures IsRank(chars, rank)
  {
    var rank :| IsRank(chars, rank); rank
  }

  /** The nodes from the root down to `x`. */
  ghost function Path(chars: Chars, x: Ident): (path: seq<Ident>)
    requires Rooted(chars) && x in chars
    ensures path != [] && path[0] == ROOT && path[|path| - 1] == x
    decreases Ranks(chars)[x]
  {
    if x == ROOT then [ROOT] else Path(chars, chars[x].parent) + [x]
  }

  ghost predicate Before(chars: Chars, x: Ident, y: Ident)
    requires Rooted(chars) && x in chars && y in chars
  {
    Precedes(Path(chars, x), Path(chars, y))
  }

  /** `a` lies strictly above `y`. */
  ghost predicate Above(chars: Chars, a: Ident, y: Ident)
    requires Rooted(chars) && a in chars && y in chars
  {
    Path(chars, a) < Path(chars, y)
  }

  lemma AboveIsPathOfParent(chars: Chars, a: Ident, y: Ident)
    requires Rooted(chars) && a in chars && y in chars && y != ROOT
    ensures Above(chars, a, y) <==> a == chars[y].parent || Above(chars, a, chars[y].parent)
    ensures chars[y].parent in chars && Path(chars, y) == Path(chars, chars[y].parent) + [y]
  {
    var p := Path(chars, chars[y].parent);
    assert Path(chars, y) == p + [y];
    var q := Path(chars, a);
    if q < p + [y] {
      assert q <= p;
      if q == p { assert a == q[|q| - 1] == p[|p| - 1]; }
    }
  }

  // ----- Growing the tree and tombstoning -----

  lemma RootedAfterAdd(chars: Chars, x: Ident, rel: Relation)
    requires Rooted(chars) && x !in chars && rel.parent in chars
    ensures Rooted(chars[x := rel])
  {
    var rank := Ranks(chars);
    assert IsRank(chars[x := rel], rank[x := rank[rel.parent] + 1]);
  }

  function Tombstoned(chars: Chars, x: Ident): Chars
    requires x in chars
  {
    chars[x := chars[x].(deleted := true)]
  }

  lemma RootedAfterTombstone(chars: Chars, x: Ident)
    requires Rooted(chars) && x in chars && x != ROOT
    ensures Rooted(Tombstoned(chars, x))
  {
    assert IsRank(Tombstoned(chars, x), Ranks(chars));
  }

  /** Same nodes and more, same parents. */
  ghost predicate Grows(chars: Chars, chars': Chars) {
    forall x :: x in chars ==> x in chars' && chars'[x].parent == chars[x].parent
  }

  lemma {:induction false} PathFrame(chars: Chars, chars': Chars, x: Ident)
    requires Rooted(chars) && Rooted(chars') && Grows(chars, chars') && x in chars
    ensures Path(chars', x) == Path(chars, x)
    decreases Ranks(chars)[x]
  {
    if x != ROOT { PathFrame(chars, chars', chars[x].parent); }
  }

  lemma PathsFrame(chars: Chars, chars': Chars)
    requires Rooted(chars) && Rooted(chars') && Grows(chars, chars')
    ensures forall x :: x in chars ==> Path(chars', x) == Path(chars, x)
  {
    forall x | x in chars ensures Path(chars', x) == Path(chars, x) { PathFrame(chars, chars', x); }
  }
}
