/** `ORDER BY` over rows: ranks are compared by two integers and then by row id. */
module Ordering {
  import opened Text

  datatype Rank = Rank(major: int, minor: int, id: string)

  predicate Before(a: Rank, b: Rank) {
    || a.major < b.major
    || (a.major == b.major && a.minor < b.minor)
    || (a.major == b.major && a.minor == b.minor && Less(a.id, b.id))
  }

  lemma BeforeIrreflexive(a: Rank)
    ensures !Before(a, a)
  {
    LessIrreflexive(a.id);
  }

  lemma BeforeTransitive(a: Rank, b: Rank, c: Rank)
    requires Before(a, b) && Before(b, c)
    ensures Before(a, c)
  {
    if Less(a.id, b.id) && Less(b.id, c.id) { LessTransitive(a.id, b.id, c.id); }
  }

  lemma BeforeTotal(a: Rank, b: Rank)
    ensures a == b || Before(a, b) || Before(b, a)
  {
    LessTotal(a.id, b.id);
  }

  predicate IsFirst(r: Rank, s: set<Rank>) {
    r in s && forall x :: x in s ==> x == r || Before(r, x)
  }

  lemma FirstUnique(a: Rank, b: Rank, s: set<Rank>)
    requires IsFirst(a, s) && IsFirst(b, s)
    ensures a == b
  {
    if a != b {
      BeforeTransitive(a, b, a);
      BeforeIrreflexive(a);
    }
  }

  lemma {:induction false} FirstExists(s: set<Rank>)
    requires s != {}
    ensures exists r :: IsFirst(r, s)
  {
    var x :| x in s;
    var rest := s - {x};
    if rest == {} {
      assert s == {x};
      assert IsFirst(x, s);
    } else {
      FirstExists(rest);
      var r :| IsFirst(r, rest);
      BeforeTotal(x, r);
      if Before(x, r) {
        forall y | y in s && y != x ensures Before(x, y) {
          if y != r { BeforeTransitive(x, r, y); }
        }
        assert IsFirst(x, s);
      } else {
        assert IsFirst(r, s);
      }
    }
  }

  /** The first row of the ordered query (`LIMIT 1`). */
  function First(s: set<Rank>): (r: Rank)
    requires s != {}
    ensures IsFirst(r, s)
  {
    FirstExists(s);
    assert forall a, b :: IsFirst(a, s) && IsFirst(b, s) ==> a == b by {
      forall a, b | IsFirst(a, s) && IsFirst(b, s) ensures a == b { FirstUnique(a, b, s); }
    }
    var r :| r in s && IsFirst(r, s);
    r
  }

  /** All rows of the ordered query. */
  function Listing(s: set<Rank>): (l: seq<Rank>)
    ensures |l| == |s|
    decreases |s|
  {
    if s == {} then [] else [First(s)] + Listing(s - {First(s)})
  }

  predicate Ascending(l: seq<Rank>) {
    forall i, j :: 0 <= i < j < |l| ==> Before(l[i], l[j])
  }

  lemma {:induction false} ListingLaw(s: set<Rank>)
    ensures forall x :: x in Listing(s) <==> x in s
    ensures Ascending(Listing(s))
    decreases |s|
  {
    if s != {} {
      var rest := s - {First(s)};
      ListingLaw(rest);
      assert Listing(s) == [First(s)] + Listing(rest);
      hide Listing, First, Before;
      FirstAscends(First(s), Listing(rest), s);
    }
  }

  lemma FirstAscends(first: Rank, rest: seq<Rank>, s: set<Rank>)
    requires IsFirst(first, s) && Ascending(rest) && forall x :: x in rest <==> x in s - {first}
    ensures Ascending([first] + rest)
    ensures forall x :: x in [first] + rest <==> x in s
  {
    hide Before;
    var l := [first] + rest;
    forall i, j | 0 <= i < j < |l| ensures Before(l[i], l[j]) {
      assert l[j] == rest[j - 1] && rest[j - 1] in rest;
      if i > 0 { assert l[i] == rest[i - 1]; }
    }
  }

  /** An ascending list is determined by its elements. */
  lemma {:induction false} AscendingUnique(a: seq<Rank>, b: seq<Rank>)
    requires Ascending(a) && Ascending(b)
    requires forall x :: x in a <==> x in b
    ensures a == b
  {
    if b != [] { assert b[0] in b; }
    if a != [] {
      assert a[0] in b;
      var j :| 0 <= j < |b| && b[j] == a[0];
      assert b[0] in a;
      var i :| 0 <= i < |a| && a[i] == b[0];
      if i > 0 && j > 0 {
        BeforeTransitive(a[0], a[i], b[j]);
        BeforeIrreflexive(a[0]);
        assert false;
      }
      TailElements(a);
      TailElements(b);
      AscendingUnique(a[1..], b[1..]);
    }
  }

  lemma TailElements(a: seq<Rank>)
    requires Ascending(a) && a != []
    ensures a == [a[0]] + a[1..]
    ensures forall x :: x in a[1..] <==> x in a && x != a[0]
  {
    forall x | x in a[1..] ensures x != a[0] {
      var k :| 0 <= k < |a[1..]| && a[1..][k] == x;
      assert a[k + 1] == x;
      BeforeIrreflexive(x);
    }
    assert a == [a[0]] + a[1..];
  }
}
