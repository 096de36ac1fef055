/**
 * Sequence helpers shared by the query pipelines and the filter panels:
 * `Array.prototype.filter`, a pipeline of optional filter stages, the
 * "remove every occurrence" and "add if absent" list updates.
 */
module Seqs {

  /** `s.filter(p)`: the elements of `s` that satisfy `p`, in their original order. */
  function Filter<T>(s: seq<T>, p: T -> bool): (r: seq<T>)
    ensures |r| <= |s|
    ensures multiset(r) <= multiset(s)
  {
    if |s| == 0 then []
    else
      var init := Filter(s[..|s| - 1], p);
      assert s == s[..|s| - 1] + [s[|s| - 1]];
      if p(s[|s| - 1]) then init + [s[|s| - 1]] else init
  }

  /** What `Filter` keeps: exactly the elements of `s` that satisfy `p`. */
  lemma {:induction false} FilterMembers<T>(s: seq<T>, p: T -> bool)
    ensures forall i :: 0 <= i < |Filter(s, p)| ==> Filter(s, p)[i] in s && p(Filter(s, p)[i])
    ensures forall i :: 0 <= i < |s| && p(s[i]) ==> s[i] in Filter(s, p)
  {
    if |s| > 0 {
      var init, last := s[..|s| - 1], s[|s| - 1];
      var r, r' := Filter(s, p), Filter(init, p);
      FilterMembers(init, p);
      FilterDropLast(s, p);
      FilterSingleton(last, p);
      forall i | 0 <= i < |r| ensures r[i] in s && p(r[i]) {
        if i < |r'| {
          assert r[i] == r'[i] && r'[i] in init;
        }
      }
      forall i | 0 <= i < |s| && p(s[i]) ensures s[i] in r {
        if i < |init| {
          assert s[i] == init[i];
        } else {
          assert r[|r| - 1] == last;
        }
      }
    }
  }

  lemma FilterSingleton<T>(y: T, p: T -> bool)
    ensures Filter([y], p) == if p(y) then [y] else []
  {
    assert [y][..0] == [];
  }

  /** Filtering the sequence one element longer (the step of a loop that filters). */
  lemma FilterSnoc<T>(s: seq<T>, y: T, p: T -> bool)
    ensures Filter(s + [y], p) == Filter(s, p) + Filter([y], p)
  {
    assert (s + [y])[..|s|] == s;
    FilterSingleton(y, p);
  }

  /** Filtering a non-empty sequence: its prefix, then its last element. */
  lemma FilterDropLast<T>(s: seq<T>, p: T -> bool)
    requires |s| > 0
    ensures Filter(s, p) == Filter(s[..|s| - 1], p) + Filter([s[|s| - 1]], p)
  {
    FilterSingleton(s[|s| - 1], p);
  }

  lemma {:induction false} FilterAppend<T>(s: seq<T>, t: seq<T>, p: T -> bool)
    ensures Filter(s + t, p) == Filter(s, p) + Filter(t, p)
    decreases |t|
  {
    if |t| == 0 {
      assert s + t == s;
    } else {
      var u := t[..|t| - 1];
      assert (s + t)[..|s + t| - 1] == s + u;
      FilterAppend(s, u, p);
    }
  }

  /** Filtering depends only on the values the predicate takes. */
  lemma {:induction false} FilterExt<T>(s: seq<T>, p: T -> bool, q: T -> bool)
    requires forall x :: x in s ==> p(x) == q(x)
    ensures Filter(s, p) == Filter(s, q)
  {
    if |s| > 0 {
      FilterExt(s[..|s| - 1], p, q);
    }
  }

  /** Filtering by `p` then by `q` is filtering once by their conjunction. */
  lemma {:induction false} FilterFuse<T>(s: seq<T>, p: T -> bool, q: T -> bool, both: T -> bool)
    requires forall x :: x in s ==> both(x) == (p(x) && q(x))
    ensures Filter(Filter(s, p), q) == Filter(s, both)
  {
    if |s| > 0 {
      FilterFuse(s[..|s| - 1], p, q, both);
    }
  }

  /** A predicate that holds everywhere removes nothing. */
  lemma {:induction false} FilterAll<T>(s: seq<T>, p: T -> bool)
    requires forall x :: x in s ==> p(x)
    ensures Filter(s, p) == s
  {
    if |s| > 0 {
      var init, last := s[..|s| - 1], s[|s| - 1];
      assert forall x :: x in init ==> x in s;
      FilterAll(init, p);
      assert p(last);
      assert init + [last] == s;
    }
  }

  /** Filtering two elements keeps each one that passes, in order. */
  lemma FilterTwo<T>(a: T, b: T, p: T -> bool)
    ensures Filter([a, b], p) == (if p(a) then [a] else []) + (if p(b) then [b] else [])
  {
    assert [a, b][..1] == [a];
    FilterSingleton(a, p);
    FilterSingleton(b, p);
  }

  /** `r` is an order-preserving subsequence of `s`. */
  predicate IsSubseq<T(==)>(r: seq<T>, s: seq<T>)
  {
    if |r| == 0 then true
    else if |s| == 0 then false
    else if r[|r| - 1] == s[|s| - 1] then IsSubseq(r[..|r| - 1], s[..|s| - 1])
    else IsSubseq(r, s[..|s| - 1])
  }

  lemma {:induction false} SubseqOfInit<T>(r: seq<T>, s: seq<T>)
    requires |s| > 0 && IsSubseq(r, s[..|s| - 1])
    ensures IsSubseq(r, s)
    decreases |s|, 0
  {
    if |r| > 0 && r[|r| - 1] == s[|s| - 1] {
      SubseqDropLast(r, s[..|s| - 1]);
    }
  }

  lemma {:induction false} SubseqDropLast<T>(r: seq<T>, t: seq<T>)
    requires |r| > 0 && IsSubseq(r, t)
    ensures IsSubseq(r[..|r| - 1], t)
    decreases |t|, 1
  {
    var t' := t[..|t| - 1];
    if r[|r| - 1] == t[|t| - 1] {
      SubseqOfInit(r[..|r| - 1], t);
    } else {
      SubseqDropLast(r, t');
      SubseqOfInit(r[..|r| - 1], t);
    }
  }

  lemma {:induction false} FilterIsSubseq<T>(s: seq<T>, p: T -> bool)
    ensures IsSubseq(Filter(s, p), s)
  {
    if |s| > 0 {
      var init := s[..|s| - 1];
      FilterIsSubseq(init, p);
      if !p(s[|s| - 1]) {
        SubseqOfInit(Filter(init, p), s);
      } else {
        assert Filter(s, p)[..|Filter(s, p)| - 1] == Filter(init, p);
      }
    }
  }

  /** One optional stage of a query pipeline: when `active`, it keeps the elements satisfying `keep`. */
  datatype Stage<!T> = Stage(active: bool, keep: T -> bool)

  function Apply<T>(s: seq<T>, st: Stage<T>): (r: seq<T>)
    ensures |r| <= |s|
  {
    if st.active then Filter(s, st.keep) else s
  }

  /** The stages applied in order, each to the output of the one before, as the pipelines reassign `filtered`. */
  function Pipeline<T>(s: seq<T>, stages: seq<Stage<T>>): (r: seq<T>)
    ensures |r| <= |s|
  {
    if |stages| == 0 then s else Apply(Pipeline(s, stages[..|stages| - 1]), stages[|stages| - 1])
  }

  /** `x` passes every active stage: the stages compose by logical AND. */
  predicate PassesAll<T>(stages: seq<Stage<T>>, x: T)
  {
    forall i :: 0 <= i < |stages| && stages[i].active ==> stages[i].keep(x)
  }

  /** Running the stages one after another is one filter by the conjunction of the active stages. */
  lemma {:induction false} PipelineIsFilter<T>(s: seq<T>, stages: seq<Stage<T>>, p: T -> bool)
    requires forall x :: x in s ==> p(x) == PassesAll(stages, x)
    ensures Pipeline(s, stages) == Filter(s, p)
    decreases |stages|
  {
    if |stages| == 0 {
      FilterAll(s, p);
    } else {
      var init := stages[..|stages| - 1];
      var last := stages[|stages| - 1];
      var q := x => PassesAll(init, x);
      forall x | x in s
        ensures p(x) == (q(x) && (last.active ==> last.keep(x)))
      {
        assert forall i :: 0 <= i < |init| ==> init[i] == stages[i];
      }
      PipelineIsFilter(s, init, q);
      if last.active {
        FilterFuse(s, q, last.keep, p);
      } else {
        FilterExt(s, q, p);
      }
    }
  }

  /** `s.filter(x => x !== v)`: every occurrence of `v` removed. */
  function RemoveAll<T(==)>(s: seq<T>, v: T): (r: seq<T>)
    ensures forall i :: 0 <= i < |r| ==> r[i] in s && r[i] != v
    ensures forall i :: 0 <= i < |s| && s[i] != v ==> s[i] in r
    ensures IsSubseq(r, s)
  {
    FilterIsSubseq(s, x => x != v);
    FilterMembers(s, x => x != v);
    Filter(s, x => x != v)
  }

  /** No value occurs twice. */
  predicate NoDups<T(==)>(s: seq<T>)
  {
    forall i, j :: 0 <= i < j < |s| ==> s[i] != s[j]
  }

  lemma {:induction false} SubseqNoDups<T>(r: seq<T>, s: seq<T>)
    requires IsSubseq(r, s) && NoDups(s)
    ensures NoDups(r)
    decreases |s|
  {
    if |r| > 0 {
      var s' := s[..|s| - 1];
      assert NoDups(s');
      if r[|r| - 1] == s[|s| - 1] {
        var r' := r[..|r| - 1];
        SubseqNoDups(r', s');
        SubseqMembers(r', s');
        forall i | 0 <= i < |r'| ensures r'[i] != r[|r| - 1] {
          assert r'[i] in s';
        }
      } else {
        SubseqNoDups(r, s');
      }
    }
  }

  lemma {:induction false} SubseqMembers<T>(r: seq<T>, s: seq<T>)
    requires IsSubseq(r, s)
    ensures forall x :: x in r ==> x in s
    decreases |s|
  {
    if |r| > 0 {
      var s' := s[..|s| - 1];
      if r[|r| - 1] == s[|s| - 1] {
        SubseqMembers(r[..|r| - 1], s');
        assert r == r[..|r| - 1] + [r[|r| - 1]];
      } else {
        SubseqMembers(r, s');
      }
    }
  }

  /** Removing a value keeps a duplicate-free list duplicate-free. */
  lemma RemoveAllNoDups<T>(s: seq<T>, v: T)
    requires NoDups(s)
    ensures NoDups(RemoveAll(s, v))
  {
    SubseqNoDups(RemoveAll(s, v), s);
  }

  /**
   * Stage `k` of `stages`: `src.filter(keep)` as a new array when the stage is
   * active, otherwise `src` itself.
   */
  method RunStage<T>(src: array<T>, stages: seq<Stage<T>>, k: nat, ghost input: seq<T>) returns (dst: array<T>)
    requires k < |stages| && src[..] == Pipeline(input, stages[..k])
    ensures dst[..] == Pipeline(input, stages[..k + 1])
    ensures stages[k].active ==> fresh(dst)
    ensures !stages[k].active ==> dst == src
  {
    PipelineStep(input, stages, k);
    var st := stages[k];
    if !st.active {
      return src;
    }
    var kept: seq<T> := [];
    var i := 0;
    while i < src.Length
      invariant 0 <= i <= src.Length
      invariant kept == Filter(src[..i], st.keep)
    {
      FilterPrefixStep(src[..], i, st.keep);
      if st.keep(src[i]) {
        kept := kept + [src[i]];
      }
      i := i + 1;
    }
    assert src[..src.Length] == src[..];
    dst := new T[|kept|](j requires 0 <= j < |kept| => kept[j]);
  }

  /** One more stage of the pipeline acts on the output of the stages before it. */
  lemma PipelineStep<T>(input: seq<T>, stages: seq<Stage<T>>, k: nat)
    requires k < |stages|
    ensures Pipeline(input, stages[..k + 1]) == Apply(Pipeline(input, stages[..k]), stages[k])
  {
    assert stages[..k + 1][..k] == stages[..k];
  }

  /** Filtering a prefix one element longer. */
  lemma FilterPrefixStep<T>(s: seq<T>, i: nat, p: T -> bool)
    requires i < |s|
    ensures Filter(s[..i + 1], p) == Filter(s[..i], p) + (if p(s[i]) then [s[i]] else [])
  {
    assert s[..i + 1][..i] == s[..i];
  }

  /** `[...a]`: a fresh array with the same elements. */
  method CopyOf<T>(a: array<T>) returns (c: array<T>)
    ensures fresh(c) && c[..] == a[..]
  {
    c := new T[a.Length](i reads a requires 0 <= i < a.Length => a[i]);
  }
}
