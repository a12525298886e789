/** Finite sets of integers in ascending order: what `ORDER BY rowid LIMIT n` and
    `MAX(cursor)` mean for a table held as a finite map. */
module Ordered {
  import opened Prelude

  ghost predicate Ascending(s: seq<int>) {
    forall i, j :: 0 <= i < j < |s| ==> s[i] < s[j]
  }

  ghost function Pick<T>(s: set<T>): (x: T)
    requires s != {}
    ensures x in s
  {
    var x :| x in s; x
  }

  ghost predicate IsMin(s: set<int>, m: int) {
    m in s && forall x :: x in s ==> m <= x
  }

  ghost function Min(s: set<int>): (m: int)
    requires s != {}
    ensures IsMin(s, m)
  {
    var a := Pick(s);
    var rest := s - {a};
    assert s == rest + {a};
    if rest == {} then a else
      var m := Min(rest);
      if a < m then a else m
  }

  /** The greatest element, or None for the empty set (SQL's MAX over no rows is NULL). */
  ghost function Max(s: set<int>): (m: Option<int>)
    ensures m.None? <==> s == {}
    ensures m.Some? ==> m.value in s && forall x :: x in s ==> x <= m.value
  {
    if s == {} then None else
      var a := Pick(s);
      var rest := s - {a};
      assert s == rest + {a};
      var m := Max(rest);
      if m.None? || m.value < a then Some(a) else m
  }

  ghost function Sorted(s: set<int>): seq<int> {
    if s == {} then [] else
      var m := Min(s);
      [m] + Sorted(s - {m})
  }

  ghost predicate Lists(r: seq<int>, s: set<int>) {
    && Ascending(r)
    && (forall i :: 0 <= i < |r| ==> r[i] in s)
    && (forall x :: x in s ==> x in r)
  }

  lemma PrependLists(m: int, t: seq<int>, rest: set<int>)
    requires Lists(t, rest)
    requires forall x :: x in rest ==> m < x
    ensures Lists([m] + t, rest + {m})
  {
    var r := [m] + t;
    assert forall i :: 0 < i < |r| ==> r[i] == t[i - 1] && t[i - 1] in rest;
    assert m !in rest;
    forall x | x in rest + {m} ensures x in r {
      if x == m {
        assert r[0] == m;
      } else {
        assert x in t;
      }
    }
  }

  lemma {:induction false} SortedLists(s: set<int>)
    ensures Lists(Sorted(s), s)
  {
    if s != {} {
      var m := Min(s);
      var rest := s - {m};
      SortedLists(rest);
      PrependLists(m, Sorted(rest), rest);
      assert s == rest + {m};
    }
  }

  lemma {:induction false} ListsCount(r: seq<int>, s: set<int>)
    requires Lists(r, s)
    ensures |r| == |s|
  {
    if r == [] {
      if s != {} {
        var x := Pick(s);
        assert false;
      }
    } else {
      var t, rest := r[1..], s - {r[0]};
      assert r == [r[0]] + t;
      assert r[0] in s;
      forall x | x in rest ensures x in t {
        assert x in r;
      }
      assert forall i :: 0 <= i < |t| ==> t[i] == r[i + 1];
      ListsCount(t, rest);
      assert |s| == |rest| + 1;
    }
  }

  lemma TailLists(a: seq<int>, s: set<int>)
    requires Lists(a, s) && a != []
    ensures a[0] in s && (forall x :: x in s ==> a[0] <= x)
    ensures Lists(a[1..], s - {a[0]})
  {
    var t := a[1..];
    assert a == [a[0]] + t;
    forall i | 0 <= i < |t| ensures t[i] in s - {a[0]} {
      assert t[i] == a[i + 1];
    }
    forall x | x in s ensures a[0] <= x && (x != a[0] ==> x in t) {
      assert x in a;
    }
  }

  /** An ascending listing of a set is unique. */
  lemma {:induction false} ListsUnique(a: seq<int>, b: seq<int>, s: set<int>)
    requires Lists(a, s) && Lists(b, s)
    ensures a == b
  {
    ListsCount(a, s);
    ListsCount(b, s);
    if a != [] {
      TailLists(a, s);
      TailLists(b, s);
      ListsUnique(a[1..], b[1..], s - {a[0]});
      assert a == [a[0]] + a[1..] && b == [b[0]] + b[1..];
    }
  }

  ghost function Take<T>(s: seq<T>, n: nat): (r: seq<T>)
    ensures |r| == if |s| <= n then |s| else n
    ensures forall i :: 0 <= i < |r| ==> r[i] == s[i]
  {
    if |s| <= n then s else s[..n]
  }

  /** The first `limit` elements of a set, ascending. */
  ghost function FirstOf(s: set<int>, limit: nat): (r: seq<int>)
    ensures Ascending(r)
    ensures |r| <= limit
    ensures forall i :: 0 <= i < |r| ==> r[i] in s
    ensures limit > 0 && s != {} ==> r != []
  {
    SortedLists(s);
    Take(Sorted(s), limit)
  }

  /** A member left out of a page lies after every member taken, and is left out only
      because the limit was reached. */
  lemma LeftOut(s: set<int>, limit: nat, x: int)
    requires x in s && x !in FirstOf(s, limit)
    ensures |FirstOf(s, limit)| == limit
    ensures forall i :: 0 <= i < limit ==> FirstOf(s, limit)[i] < x
  {
    SortedLists(s);
    var all, r := Sorted(s), FirstOf(s, limit);
    assert forall i :: 0 <= i < |r| ==> r[i] == all[i] && r[i] in r;
    var k :| 0 <= k < |all| && all[k] == x;
    assert k >= |r|;
  }

  lemma SuffixLists(all: seq<int>, s: set<int>, n: nat)
    requires Lists(all, s) && 0 < n <= |all|
    ensures Lists(all[n..], set x | x in s && x > all[n - 1])
  {
    var tail := all[n..];
    var rest := set x | x in s && x > all[n - 1];
    assert forall i :: 0 <= i < |tail| ==> tail[i] == all[i + n];
    forall x | x in rest ensures x in tail {
      assert x in all;
      var k :| 0 <= k < |all| && all[k] == x;
      assert k >= n;
      assert tail[k - n] == x;
    }
  }

  /** What follows the page: the listing of the members past its last element. */
  lemma PageThenRest(s: set<int>, limit: nat)
    requires limit > 0 && s != {}
    ensures var page := FirstOf(s, limit);
            Sorted(s) == page + Sorted(set x | x in s && x > page[|page| - 1])
  {
    var all, page := Sorted(s), FirstOf(s, limit);
    SortedLists(s);
    var n := |page|;
    var rest := set x | x in s && x > page[n - 1];
    assert all == page + all[n..];
    SuffixLists(all, s, n);
    SortedLists(rest);
    ListsUnique(all[n..], Sorted(rest), rest);
  }

  lemma AllOnOnePage(s: set<int>, limit: nat)
    requires |FirstOf(s, limit)| < limit
    ensures FirstOf(s, limit) == Sorted(s)
  {
  }
}
