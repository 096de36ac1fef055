/**
 * `Array.prototype.sort(compare)`: a stable sort driven by a comparator that
 * returns a negative, zero or positive number. `Sort` is the specification
 * (insertion sort on sequences); `SortInPlace` is the in-place array sort the
 * pipelines call, proved to produce exactly `Sort` of the old contents.
 */
module Sorting {
  import opened Seqs

  /** Inserts `x` after the last element of `t` that does not compare greater than it. */
  function Insert<T>(t: seq<T>, x: T, cmp: (T, T) -> int): (r: seq<T>)
    ensures |r| == |t| + 1
  {
    if |t| == 0 then [x]
    else if cmp(t[|t| - 1], x) > 0 then Insert(t[..|t| - 1], x, cmp) + [t[|t| - 1]]
    else t + [x]
  }

  /** Inserting adds exactly one occurrence of `x`. */
  lemma {:induction false} InsertPerm<T>(t: seq<T>, x: T, cmp: (T, T) -> int)
    ensures multiset(Insert(t, x, cmp)) == multiset(t) + multiset{x}
  {
    if |t| > 0 && cmp(t[|t| - 1], x) > 0 {
      assert t == t[..|t| - 1] + [t[|t| - 1]];
      InsertPerm(t[..|t| - 1], x, cmp);
    }
  }

  /** The stably sorted permutation of `s`. */
  function Sort<T>(s: seq<T>, cmp: (T, T) -> int): (r: seq<T>)
    ensures |r| == |s|
    ensures multiset(r) == multiset(s)
  {
    if |s| == 0 then []
    else
      assert s == s[..|s| - 1] + [s[|s| - 1]];
      InsertPerm(Sort(s[..|s| - 1], cmp), s[|s| - 1], cmp);
      Insert(Sort(s[..|s| - 1], cmp), s[|s| - 1], cmp)
  }

  function Sign(n: int): int
  {
    if n < 0 then -1 else if n > 0 then 1 else 0
  }

  /**
   * Trigger terms for the quantifiers of `ConsistentOn`: those quantifiers are
   * instantiated only where a proof names the pair or triple it needs (through
   * `Flip` and `Chain`), which keeps the solver from enumerating every
   * combination of the elements in scope.
   */
  ghost predicate Pair<T>(a: T, b: T) { true }
  ghost predicate Triple<T>(a: T, b: T, c: T) { true }

  /**
   * On the values of `u`, `cmp` behaves as a consistent comparator: swapping
   * the arguments flips the sign, and "not after" is transitive.
   */
  ghost predicate ConsistentOn<T(!new)>(cmp: (T, T) -> int, u: seq<T>)
  {
    && (forall a, b {:trigger Pair(a, b)} :: Pair(a, b) && a in u && b in u ==> Sign(cmp(a, b)) == -Sign(cmp(b, a)))
    && (forall a, b, c {:trigger Triple(a, b, c)} ::
          Triple(a, b, c) && a in u && b in u && c in u && cmp(a, b) <= 0 && cmp(b, c) <= 0 ==> cmp(a, c) <= 0)
  }

  lemma Flip<T(!new)>(cmp: (T, T) -> int, u: seq<T>, a: T, b: T)
    requires ConsistentOn(cmp, u) && a in u && b in u
    ensures Sign(cmp(a, b)) == -Sign(cmp(b, a))
    ensures cmp(a, b) > 0 <==> cmp(b, a) < 0
    ensures cmp(a, b) == 0 <==> cmp(b, a) == 0
  {
    assert Pair(a, b);
  }

  lemma Chain<T(!new)>(cmp: (T, T) -> int, u: seq<T>, a: T, b: T, c: T)
    requires ConsistentOn(cmp, u) && a in u && b in u && c in u
    requires cmp(a, b) <= 0 && cmp(b, c) <= 0
    ensures cmp(a, c) <= 0
  {
    assert Triple(a, b, c);
  }

  /** A comparator that is a difference of integer keys is consistent. */
  lemma KeyOrderConsistent<T(!new)>(cmp: (T, T) -> int, key: T -> int, u: seq<T>)
    requires forall a, b :: a in u && b in u ==> cmp(a, b) == key(a) - key(b)
    ensures ConsistentOn(cmp, u)
  {
    forall a, b | Pair(a, b) && a in u && b in u
      ensures Sign(cmp(a, b)) == -Sign(cmp(b, a))
    {
    }
    forall a, b, c | Triple(a, b, c) && a in u && b in u && c in u && cmp(a, b) <= 0 && cmp(b, c) <= 0
      ensures cmp(a, c) <= 0
    {
    }
  }

  /** No element of `s` compares greater than a later one. */
  predicate SortedBy<T>(s: seq<T>, cmp: (T, T) -> int)
  {
    forall i, j :: 0 <= i < j < |s| ==> cmp(s[i], s[j]) <= 0
  }

  /** Appending a value that no element compares greater than keeps a sequence ordered. */
  lemma SortedSnoc<T>(r: seq<T>, y: T, cmp: (T, T) -> int)
    requires SortedBy(r, cmp)
    requires forall i :: 0 <= i < |r| ==> cmp(r[i], y) <= 0
    ensures SortedBy(r + [y], cmp)
  {
    var s := r + [y];
    assert forall i :: 0 <= i < |r| ==> s[i] == r[i];
  }

  lemma {:induction false} InsertSorted<T(!new)>(t: seq<T>, x: T, cmp: (T, T) -> int, u: seq<T>)
    requires ConsistentOn(cmp, u)
    requires x in u && forall e :: e in t ==> e in u
    requires SortedBy(t, cmp)
    ensures SortedBy(Insert(t, x, cmp), cmp)
  {
    if |t| > 0 {
      var init, last := t[..|t| - 1], t[|t| - 1];
      if cmp(last, x) > 0 {
        var r' := Insert(init, x, cmp);
        assert SortedBy(r', cmp) by {
          assert forall e :: e in init ==> e in t;
          InsertSorted(init, x, cmp, u);
        }
        assert forall i :: 0 <= i < |r'| ==> cmp(r'[i], last) <= 0 by {
          Flip(cmp, u, last, x);
          assert forall i :: 0 <= i < |init| ==> cmp(init[i], last) <= 0 by {
            assert forall i :: 0 <= i < |init| ==> init[i] == t[i];
          }
          InsertBelow(init, x, cmp, last);
        }
        SortedSnoc(r', last, cmp);
      } else {
        assert forall i :: 0 <= i < |t| ==> cmp(t[i], x) <= 0 by {
          forall i | 0 <= i < |t| ensures cmp(t[i], x) <= 0 {
            if i < |t| - 1 {
              assert t[i] in t;
              Chain(cmp, u, t[i], last, x);
            }
          }
        }
        SortedSnoc(t, x, cmp);
      }
    }
  }

  /** Inserting below a bound every element respects keeps every element below it. */
  lemma InsertBelow<T>(t: seq<T>, x: T, cmp: (T, T) -> int, b: T)
    requires cmp(x, b) <= 0
    requires forall i :: 0 <= i < |t| ==> cmp(t[i], b) <= 0
    ensures forall i :: 0 <= i < |Insert(t, x, cmp)| ==> cmp(Insert(t, x, cmp)[i], b) <= 0
  {
    var r := Insert(t, x, cmp);
    InsertPerm(t, x, cmp);
    forall i | 0 <= i < |r| ensures cmp(r[i], b) <= 0 {
      var e := r[i];
      assert e in multiset(r);
      if e != x {
        assert e in multiset(t);
        var k :| 0 <= k < |t| && t[k] == e;
      }
    }
  }

  lemma {:induction false} SortSortedWithin<T(!new)>(s: seq<T>, cmp: (T, T) -> int, u: seq<T>)
    requires ConsistentOn(cmp, u)
    requires forall e :: e in s ==> e in u
    ensures SortedBy(Sort(s, cmp), cmp)
  {
    if |s| > 0 {
      var init := s[..|s| - 1];
      SortSortedWithin(init, cmp, u);
      var t := Sort(init, cmp);
      forall e | e in t ensures e in u {
        assert e in multiset(t);
      }
      InsertSorted(t, s[|s| - 1], cmp, u);
    }
  }

  /** With a consistent comparator, the sorted sequence is ordered by it. */
  lemma SortSorted<T(!new)>(s: seq<T>, cmp: (T, T) -> int)
    requires ConsistentOn(cmp, s)
    ensures SortedBy(Sort(s, cmp), cmp)
    ensures multiset(Sort(s, cmp)) == multiset(s)
  {
    SortSortedWithin(s, cmp, s);
  }

  /** A sequence already in order is left exactly as it is. */
  lemma {:induction false} SortOfSorted<T>(s: seq<T>, cmp: (T, T) -> int)
    requires SortedBy(s, cmp)
    ensures Sort(s, cmp) == s
  {
    if |s| > 0 {
      var init, last := s[..|s| - 1], s[|s| - 1];
      assert Sort(init, cmp) == init by {
        assert SortedBy(init, cmp) by {
          assert forall i :: 0 <= i < |init| ==> init[i] == s[i];
        }
        SortOfSorted(init, cmp);
      }
      assert Insert(init, last, cmp) == s by {
        if |init| > 0 {
          assert cmp(s[|s| - 2], last) <= 0;
        }
        assert init + [last] == s;
      }
    }
  }

  /** Sorting twice by the same key gives the same order as sorting once. */
  lemma SortIdempotent<T(!new)>(s: seq<T>, cmp: (T, T) -> int)
    requires ConsistentOn(cmp, s)
    ensures Sort(Sort(s, cmp), cmp) == Sort(s, cmp)
  {
    SortSorted(s, cmp);
    SortOfSorted(Sort(s, cmp), cmp);
  }

  /** A comparator that returns 0 for every pair (the `default:` branch) leaves the order unchanged. */
  lemma SortByZero<T>(s: seq<T>, cmp: (T, T) -> int)
    requires forall i, j :: 0 <= i < |s| && 0 <= j < |s| ==> cmp(s[i], s[j]) == 0
    ensures Sort(s, cmp) == s
  {
    SortOfSorted(s, cmp);
  }

  lemma SortOne<T>(a: T, cmp: (T, T) -> int)
    ensures Sort([a], cmp) == [a]
  {
    assert [a][..0] == [];
  }

  /** Two elements are swapped exactly when the first compares above the second. */
  lemma SortTwo<T>(a: T, b: T, cmp: (T, T) -> int)
    ensures cmp(a, b) > 0 ==> Sort([a, b], cmp) == [b, a]
    ensures cmp(a, b) <= 0 ==> Sort([a, b], cmp) == [a, b]
  {
    assert [a, b][..1] == [a];
    assert Sort([a], cmp) == Insert(Sort([], cmp), a, cmp) == [a];
  }

  /** The elements that compare equal to `x`. */
  function TiesWith<T>(cmp: (T, T) -> int, x: T): T -> bool
  {
    e => cmp(e, x) == 0
  }

  lemma {:induction false} InsertTies<T(!new)>(t: seq<T>, y: T, cmp: (T, T) -> int, x: T, u: seq<T>)
    requires ConsistentOn(cmp, u)
    requires x in u && y in u && forall e :: e in t ==> e in u
    ensures Filter(Insert(t, y, cmp), TiesWith(cmp, x))
         == Filter(t, TiesWith(cmp, x)) + Filter([y], TiesWith(cmp, x))
  {
    var p := TiesWith(cmp, x);
    if |t| == 0 {
      assert Insert(t, y, cmp) == [y];
      assert Filter(t, p) == [];
    } else if cmp(t[|t| - 1], y) <= 0 {
      assert Insert(t, y, cmp) == t + [y];
      FilterSnoc(t, y, p);
    } else {
      var init, last := t[..|t| - 1], t[|t| - 1];
      var rest := Insert(init, y, cmp);
      assert t == init + [last];
      assert Insert(t, y, cmp) == rest + [last];
      assert last in t;
      assert forall e :: e in init ==> e in t;
      InsertTies(init, y, cmp, x, u);
      FilterSnoc(rest, last, p);
      FilterSnoc(init, last, p);
      FilterSingleton(y, p);
      FilterSingleton(last, p);
      if p(y) && p(last) {
        Flip(cmp, u, y, x);
        Chain(cmp, u, last, x, y);
        assert false;
      }
      var fi, fy, fl := Filter(init, p), Filter([y], p), Filter([last], p);
      assert Filter(Insert(t, y, cmp), p) == (fi + fy) + fl;
      assert Filter(t, p) == fi + fl;
      SwapLast(fi, fy, fl);
    }
  }

  lemma SwapLast<T>(a: seq<T>, b: seq<T>, c: seq<T>)
    requires b == [] || c == []
    ensures (a + b) + c == (a + c) + b
  {
    if b == [] {
      assert a + b == a && a + c + b == a + c;
    } else {
      assert a + c == a && a + b + c == a + b;
    }
  }

  lemma {:induction false} SortStableWithin<T(!new)>(s: seq<T>, cmp: (T, T) -> int, x: T, u: seq<T>)
    requires ConsistentOn(cmp, u)
    requires x in u && forall e :: e in s ==> e in u
    ensures Filter(Sort(s, cmp), TiesWith(cmp, x)) == Filter(s, TiesWith(cmp, x))
  {
    if |s| > 0 {
      var p := TiesWith(cmp, x);
      var init, last := s[..|s| - 1], s[|s| - 1];
      var t := Sort(init, cmp);
      assert forall e :: e in init ==> e in u by {
        assert forall e :: e in init ==> e in s;
      }
      assert Filter(t, p) == Filter(init, p) by {
        SortStableWithin(init, cmp, x, u);
      }
      assert Filter(Insert(t, last, cmp), p) == Filter(t, p) + Filter([last], p) by {
        assert last in s;
        SortMembers(init, cmp);
        InsertTies(t, last, cmp, x, u);
      }
      FilterDropLast(s, p);
    }
  }

  /** Sorting neither adds nor drops values. */
  lemma SortMembers<T>(s: seq<T>, cmp: (T, T) -> int)
    ensures forall e :: e in Sort(s, cmp) <==> e in s
  {
    var r := Sort(s, cmp);
    assert multiset(r) == multiset(s);
    forall e ensures e in r <==> e in s {
      assert e in r <==> e in multiset(r);
      assert e in s <==> e in multiset(s);
    }
  }

  /**
   * Stability: the elements that tie with `x` appear in the sorted sequence
   * in exactly the order they had in the input.
   */
  lemma SortStable<T(!new)>(s: seq<T>, cmp: (T, T) -> int, x: T)
    requires ConsistentOn(cmp, s) && x in s
    ensures Filter(Sort(s, cmp), TiesWith(cmp, x)) == Filter(s, TiesWith(cmp, x))
  {
    SortStableWithin(s, cmp, x, s);
  }

  /** `Insert` places `x` right after the last element that does not compare greater than it. */
  lemma {:induction false} InsertAt<T>(t: seq<T>, x: T, cmp: (T, T) -> int, j: nat)
    requires j <= |t|
    requires j == 0 || cmp(t[j - 1], x) <= 0
    requires forall k :: j <= k < |t| ==> cmp(t[k], x) > 0
    ensures Insert(t, x, cmp) == t[..j] + [x] + t[j..]
    decreases |t|
  {
    if |t| == j {
      assert t[..j] == t && t[j..] == [];
    } else {
      var init, last := t[..|t| - 1], t[|t| - 1];
      assert Insert(t, x, cmp) == Insert(init, x, cmp) + [last];
      assert forall k :: j <= k < |init| ==> init[k] == t[k];
      assert j == 0 || init[j - 1] == t[j - 1];
      InsertAt(init, x, cmp, j);
      SpliceBeforeLast(t, x, j);
    }
  }

  /** Splicing `x` in at `j` commutes with putting the last element back. */
  lemma SpliceBeforeLast<T>(t: seq<T>, x: T, j: nat)
    requires j < |t|
    ensures var init := t[..|t| - 1]; (init[..j] + [x] + init[j..]) + [t[|t| - 1]] == t[..j] + [x] + t[j..]
  {
    var init := t[..|t| - 1];
    assert init[..j] == t[..j];
    assert init[j..] + [t[|t| - 1]] == t[j..];
  }

  lemma SortSnoc<T>(s: seq<T>, i: nat, cmp: (T, T) -> int)
    requires i < |s|
    ensures Sort(s[..i + 1], cmp) == Insert(Sort(s[..i], cmp), s[i], cmp)
  {
    assert s[..i + 1][..i] == s[..i];
  }

  /**
   * One pass of the in-place sort: the element at `i` moves left past every
   * element of the sorted prefix that compares greater than it.
   */
  method InsertInPlace<T>(a: array<T>, i: nat, cmp: (T, T) -> int)
    requires i < a.Length
    modifies a
    ensures a[..i + 1] == Insert(old(a[..i]), old(a[i]), cmp)
    ensures a[i + 1..] == old(a[i + 1..])
  {
    ghost var t := a[..i];
    var x := a[i];
    var j := i;
    while j > 0 && cmp(a[j - 1], x) > 0
      invariant 0 <= j <= i
      invariant forall k :: 0 <= k < j ==> a[k] == t[k]
      invariant forall k :: j < k <= i ==> a[k] == t[k - 1]
      invariant forall k :: i < k < a.Length ==> a[k] == old(a[k])
      invariant forall k :: j <= k < i ==> cmp(t[k], x) > 0
    {
      a[j] := a[j - 1];
      j := j - 1;
    }
    a[j] := x;
    InsertAt(t, x, cmp, j);
    PlacedAt(a[..], t, x, j);
  }

  /** An array prefix holding `t` with `x` put in at `j` is that splice. */
  lemma PlacedAt<T>(s: seq<T>, t: seq<T>, x: T, j: nat)
    requires j <= |t| < |s| && s[j] == x
    requires forall k :: 0 <= k < j ==> s[k] == t[k]
    requires forall k :: j < k <= |t| ==> s[k] == t[k - 1]
    ensures s[..|t| + 1] == t[..j] + [x] + t[j..]
  {
    var r := t[..j] + [x] + t[j..];
    assert forall k :: 0 <= k <= |t| ==> s[k] == r[k];
  }

  /** Sorts `a` in place; the result is the stable sort of its old contents. */
  method SortInPlace<T>(a: array<T>, cmp: (T, T) -> int)
    modifies a
    ensures a[..] == Sort(old(a[..]), cmp)
  {
    ghost var s := a[..];
    var i := 0;
    while i < a.Length
      invariant 0 <= i <= a.Length
      invariant a[..i] == Sort(s[..i], cmp)
      invariant a[i..] == s[i..]
    {
      ghost var rest := a[i + 1..];
      assert a[i] == a[i..][0] == s[i..][0] == s[i];
      assert rest == a[i..][1..] == s[i + 1..];
      InsertInPlace(a, i, cmp);
      SortSnoc(s, i, cmp);
      i := i + 1;
    }
    assert s[..a.Length] == s;
  }
}
