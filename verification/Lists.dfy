/** Inserting into, erasing from and ordering plain lists. */
module Lists {
  /** Every earlier element stands in relation `r` to every later one. */
  ghost predicate Pairwise<T(!new)>(s: seq<T>, r: (T, T) -> bool) {
    forall i, j :: 0 <= i < j < |s| ==> r(s[i], s[j])
  }

  /** No element occurs twice. */
  ghost predicate Distinct<T(!new)>(s: seq<T>) {
    forall i, j :: 0 <= i < j < |s| ==> s[i] != s[j]
  }

  function IndexOf<T(==)>(s: seq<T>, x: T): (i: nat)
    requires x in s
    ensures i < |s| && s[i] == x && x !in s[..i]
  {
    if s[0] == x then 0 else 1 + IndexOf(s[1..], x)
  }

  /** The list without `x`; everything else keeps its order. */
  function Erase<T(==,!new)>(s: seq<T>, x: T): (r: seq<T>)
    ensures forall y :: y in r <==> y in s && y != x
  {
    if s == [] then [] else (if s[0] == x then [] else [s[0]]) + Erase(s[1..], x)
  }

  function InsertAt<T>(s: seq<T>, i: nat, x: T): (r: seq<T>)
    requires i <= |s|
    ensures |r| == |s| + 1 && r[i] == x
    ensures (forall y | y in s :: y in r) && forall y | y in r :: y in s || y == x
  {
    var r := s[..i] + [x] + s[i..];
    assert s == s[..i] + s[i..];
    r
  }

  // ----- Lists laid out as front, row, rest -----

  lemma Regroup<T>(a: seq<T>, b: seq<T>, c: seq<T>)
    ensures a + (b + c) == a + b + c
  {}

  lemma InsertInSlice<T>(front: seq<T>, row: seq<T>, rest: seq<T>, k: nat, pos: nat, x: T)
    requires k <= |row| && pos == |front| + k
    ensures InsertAt(front + row + rest, pos, x) == front + InsertAt(row, k, x) + rest
  {
    assert (front + row + rest)[..pos] == front + row[..k];
    assert (front + row + rest)[pos..] == row[k..] + rest;
  }

  lemma EraseInSlice<T>(front: seq<T>, row: seq<T>, rest: seq<T>, k: nat, pos: nat)
    requires k < |row| && pos == |front| + k
    ensures (front + row + rest)[..pos] + (front + row + rest)[pos + 1..] == front + (row[..k] + row[k + 1..]) + rest
  {
    assert (front + row + rest)[..pos] == front + row[..k] && (front + row + rest)[pos + 1..] == row[k + 1..] + rest;
  }

  // ----- Inserting and erasing -----

  /** `x` occurs and comes before `y`, which occurs too. */
  ghost predicate Ahead<T(!new)>(s: seq<T>, x: T, y: T) {
    x in s && y in s && IndexOf(s, x) < IndexOf(s, y)
  }

  lemma InsertShifts<T>(s: seq<T>, i: nat, x: T)
    requires i <= |s|
    ensures forall k :: 0 <= k < i ==> InsertAt(s, i, x)[k] == s[k]
    ensures forall k :: i < k <= |s| ==> InsertAt(s, i, x)[k] == s[k - 1]
  {}

  lemma PairwiseInsert<T(!new)>(s: seq<T>, i: nat, x: T, r: (T, T) -> bool)
    requires i <= |s| && Pairwise(s, r)
    requires forall k :: 0 <= k < i ==> r(s[k], x)
    requires forall k :: i <= k < |s| ==> r(x, s[k])
    ensures Pairwise(InsertAt(s, i, x), r)
  {
    var t := InsertAt(s, i, x);
    InsertShifts(s, i, x);
    forall j, k | 0 <= j < k < |t| ensures r(t[j], t[k]) {
      if j != i && k != i {
        var j0, k0 := if j < i then j else j - 1, if k < i then k else k - 1;
        assert t[j] == s[j0] && t[k] == s[k0];
      }
    }
  }

  lemma {:induction false} PairwiseErase<T(!new)>(s: seq<T>, x: T, r: (T, T) -> bool)
    requires Pairwise(s, r)
    ensures Pairwise(Erase(s, x), r)
  {
    if s != [] {
      PairwiseErase(s[1..], x, r);
      var t := Erase(s[1..], x);
      if s[0] != x {
        forall k | 0 <= k < |t| ensures r(s[0], t[k]) {
          assert t[k] in s[1..];
        }
        PairwiseInsert(t, 0, s[0], r);
        assert InsertAt(t, 0, s[0]) == [s[0]] + t;
      }
    }
  }

  lemma DistinctInsert<T(!new)>(s: seq<T>, i: nat, x: T)
    requires i <= |s| && Distinct(s) && x !in s
    ensures Distinct(InsertAt(s, i, x))
  {
    PairwiseInsert(s, i, x, (a, b) => a != b);
  }

  lemma DistinctErase<T(!new)>(s: seq<T>, x: T)
    requires Distinct(s)
    ensures Distinct(Erase(s, x))
  {
    PairwiseErase(s, x, (a, b) => a != b);
  }

  lemma {:induction false} IndexUnique<T(!new)>(s: seq<T>, i: nat)
    requires Distinct(s) && i < |s|
    ensures IndexOf(s, s[i]) == i
  {
    var k := IndexOf(s, s[i]);
  }

  lemma {:induction false} EraseAbsent<T(!new)>(s: seq<T>, x: T)
    requires x !in s
    ensures Erase(s, x) == s
  {
    if s != [] { EraseAbsent(s[1..], x); }
  }

  lemma {:induction false} EraseSplits<T(!new)>(s: seq<T>, i: nat)
    requires Distinct(s) && i < |s|
    ensures Erase(s, s[i]) == s[..i] + s[i + 1..]
  {
    if i == 0 {
      EraseAbsent(s[1..], s[0]);
    } else {
      EraseSplits(s[1..], i - 1);
      assert s[1..][..i - 1] == s[1..i] && s[..i] == [s[0]] + s[1..i];
    }
  }

  /** Erasing undoes inserting. */
  lemma EraseInserted<T(!new)>(s: seq<T>, i: nat, x: T)
    requires i <= |s| && x !in s && Distinct(s)
    ensures Erase(InsertAt(s, i, x), x) == s
  {
    DistinctInsert(s, i, x);
    EraseSplits(InsertAt(s, i, x), i);
    assert s == s[..i] + s[i..];
  }

  lemma IndexAfterInsert<T(!new)>(s: seq<T>, i: nat, x: T, y: T)
    requires i <= |s| && Distinct(s) && x !in s && y in s
    ensures IndexOf(InsertAt(s, i, x), x) == i
    ensures IndexOf(InsertAt(s, i, x), y) == if IndexOf(s, y) < i then IndexOf(s, y) else IndexOf(s, y) + 1
  {
    var k := IndexOf(s, y);
    DistinctInsert(s, i, x);
    InsertShifts(s, i, x);
    IndexUnique(InsertAt(s, i, x), i);
    IndexUnique(InsertAt(s, i, x), if k < i then k else k + 1);
  }

  /** The newcomer, and what is just in front of it. */
  lemma InsertedBehind<T(!new)>(s: seq<T>, i: nat, x: T)
    requires 0 < i <= |s| && Distinct(s) && x !in s
    ensures IndexOf(s, s[i - 1]) == i - 1
    ensures x in InsertAt(s, i, x) && IndexOf(InsertAt(s, i, x), x) == i && InsertAt(s, i, x)[i - 1] == s[i - 1]
  {
    DistinctInsert(s, i, x);
    IndexUnique(s, i - 1);
    IndexUnique(InsertAt(s, i, x), i);
    InsertShifts(s, i, x);
  }

  lemma AheadAfterInsert<T(!new)>(s: seq<T>, i: nat, z: T, x: T, y: T)
    requires i <= |s| && Distinct(s) && z !in s && Ahead(s, x, y)
    ensures Ahead(InsertAt(s, i, z), x, y)
  {
    IndexAfterInsert(s, i, z, x);
    IndexAfterInsert(s, i, z, y);
  }

  lemma {:induction false} IndexAfterErase<T(!new)>(s: seq<T>, x: T, y: T)
    requires Distinct(s) && x in s && y in s && x != y
    ensures y in Erase(s, x)
    ensures IndexOf(Erase(s, x), y) == if IndexOf(s, y) < IndexOf(s, x) then IndexOf(s, y) else IndexOf(s, y) - 1
  {
    var i, k := IndexOf(s, x), IndexOf(s, y);
    var k' := if k < i then k else k - 1;
    EraseSplits(s, i);
    DistinctErase(s, x);
    assert Erase(s, x)[k'] == y;
    IndexUnique(Erase(s, x), k');
  }

  lemma AheadAfterErase<T(!new)>(s: seq<T>, z: T, x: T, y: T)
    requires Distinct(s) && Ahead(s, x, y) && z != x && z != y
    ensures Ahead(Erase(s, z), x, y)
  {
    if z in s {
      IndexAfterErase(s, z, x);
      IndexAfterErase(s, z, y);
      IndicesDiffer(s, z, x);
      IndicesDiffer(s, z, y);
      var e := Erase(s, z);
      ClosedUp(IndexOf(s, z), IndexOf(s, x), IndexOf(s, y), IndexOf(e, x), IndexOf(e, y));
    } else {
      EraseAbsent(s, z);
    }
  }

  lemma IndicesDiffer<T(!new)>(s: seq<T>, x: T, y: T)
    requires x in s && y in s && x != y
    ensures IndexOf(s, x) != IndexOf(s, y)
  {}

  lemma ClosedUp(i: nat, j: nat, k: nat, j': nat, k': nat)
    requires j < k && i != j && i != k
    requires j' == (if j < i then j else j - 1) && k' == (if k < i then k else k - 1)
    ensures j' < k'
  {}

  lemma AheadAt<T(!new)>(s: seq<T>, i: nat, j: nat)
    requires Distinct(s) && i < j < |s|
    ensures Ahead(s, s[i], s[j])
  {
    IndexUnique(s, i);
    IndexUnique(s, j);
  }

  /** A strict order has one sorted list for each set of elements. */
  lemma {:induction false} SortedUnique<T(!new)>(s: seq<T>, t: seq<T>, r: (T, T) -> bool)
    requires Pairwise(s, r) && Pairwise(t, r) && forall x, y :: !(r(x, y) && r(y, x))
    requires forall x :: x in s <==> x in t
    ensures s == t
  {
    assert t != [] ==> t[0] in s;
    if s != [] {
      assert s[0] in t && t[0] in s;
      var i, j := IndexOf(t, s[0]), IndexOf(s, t[0]);
      assert t[i] == s[0] && s[j] == t[0];
      forall x ensures x in s[1..] <==> x in t[1..] {
        assert r(s[0], s[0]) ==> false;
        assert x in s <==> x == s[0] || x in s[1..];
        assert x in t <==> x == t[0] || x in t[1..];
      }
      SortedUnique(s[1..], t[1..], r);
      assert s == [s[0]] + s[1..] && t == [t[0]] + t[1..];
    }
  }
}
