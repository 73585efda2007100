/** The list primitives the store and its views are written with:
    Array.prototype.filter and find, a map that rewrites only the elements a guard
    picks, and the order-preserving subsequence relation that describes
    what a filter returns. */
module Seqs {
  import opened Wrappers

  /** r is an order-preserving subsequence of s. */
  ghost predicate IsSubseq<T>(r: seq<T>, s: seq<T>)
    decreases |s|
  {
    if r == [] then true
    else if s == [] then false
    else (r[0] == s[0] && IsSubseq(r[1..], s[1..])) || IsSubseq(r, s[1..])
  }

  /** JavaScript's s.filter(p): the elements of s satisfying p, in order. */
  function Filter<T>(s: seq<T>, p: T -> bool): (r: seq<T>)
    ensures |r| <= |s|
    ensures forall i :: 0 <= i < |r| ==> r[i] in s && p(r[i])
    ensures forall i :: 0 <= i < |s| && p(s[i]) ==> s[i] in r
    ensures IsSubseq(r, s)
  {
    if s == [] then []
    else if p(s[0]) then [s[0]] + Filter(s[1..], p)
    else Filter(s[1..], p)
  }

  /** s.map(x => hit(x) ? f(x) : x). */
  function Update<T>(s: seq<T>, hit: T -> bool, f: T -> T): (r: seq<T>)
    ensures |r| == |s|
    ensures forall i :: 0 <= i < |s| ==> r[i] == if hit(s[i]) then f(s[i]) else s[i]
  {
    seq(|s|, i requires 0 <= i < |s| => if hit(s[i]) then f(s[i]) else s[i])
  }

  /** Array.prototype.findIndex, with |s| for 'none': the position of the
      first element satisfying p. */
  function FindIndex<T>(s: seq<T>, p: T -> bool): (i: nat)
    ensures i <= |s|
    ensures i < |s| ==> p(s[i])
    ensures forall j :: 0 <= j < i ==> !p(s[j])
  {
    if s == [] then 0
    else if p(s[0]) then 0
    else 1 + FindIndex(s[1..], p)
  }

  /** Array.prototype.find: the first element satisfying p, if any. */
  function Find<T>(s: seq<T>, p: T -> bool): (r: Option<T>)
    ensures r.Some? <==> exists x :: x in s && p(x)
    ensures r.Some? ==> r.value in s && p(r.value)
  {
    var i := FindIndex(s, p);
    if i < |s| then Some(s[i]) else None
  }

  /** Lists of one length whose elements pass p at the same positions
      have their first match at the same position. */
  lemma {:induction false} FindIndexAgree<T>(a: seq<T>, b: seq<T>, p: T -> bool)
    requires |a| == |b| && forall i :: 0 <= i < |a| ==> p(a[i]) == p(b[i])
    ensures FindIndex(a, p) == FindIndex(b, p)
  {
    if a != [] && !p(a[0]) {
      FindIndexAgree(a[1..], b[1..], p);
    }
  }

  /** An element of a subsequence is an element of the whole. */
  lemma {:induction false} SubseqMembers<T>(r: seq<T>, s: seq<T>)
    requires IsSubseq(r, s)
    ensures forall i :: 0 <= i < |r| ==> r[i] in s
    decreases |s|
  {
    if r != [] && s != [] {
      if r[0] == s[0] && IsSubseq(r[1..], s[1..]) {
        SubseqMembers(r[1..], s[1..]);
        forall i | 0 < i < |r| ensures r[i] in s {
          assert r[i] == r[1..][i - 1];
        }
      } else {
        SubseqMembers(r, s[1..]);
      }
    }
  }

  /** Filtering with a predicate that every element passes changes nothing. */
  lemma {:induction false} FilterKeepsAll<T>(s: seq<T>, p: T -> bool)
    requires forall x :: x in s ==> p(x)
    ensures Filter(s, p) == s
  {
    if s != [] {
      FilterKeepsAll(s[1..], p);
    }
  }

  /** Filtering with a predicate that no element passes leaves nothing. */
  lemma FilterDropsAll<T>(s: seq<T>, p: T -> bool)
    requires forall x :: x in s ==> !p(x)
    ensures Filter(s, p) == []
  {
  }

  /** Filters on predicates that agree on s give the same list. */
  lemma {:induction false} FilterAgree<T>(s: seq<T>, p: T -> bool, q: T -> bool)
    requires forall x :: x in s ==> p(x) == q(x)
    ensures Filter(s, p) == Filter(s, q)
  {
    if s != [] {
      FilterAgree(s[1..], p, q);
    }
  }

  /** Two successive filters are one filter on the conjunction. */
  lemma {:induction false} FilterFilter<T>(s: seq<T>, p: T -> bool, q: T -> bool, both: T -> bool)
    requires forall x :: both(x) == (p(x) && q(x))
    ensures Filter(Filter(s, p), q) == Filter(s, both)
  {
    if s != [] {
      FilterFilter(s[1..], p, q, both);
      if p(s[0]) {
        assert Filter(s, p) == [s[0]] + Filter(s[1..], p);
        assert Filter(s, p)[1..] == Filter(s[1..], p);
      }
    }
  }

  /** A stronger predicate keeps a subsequence of what a weaker one keeps. */
  lemma {:induction false} FilterMonotone<T>(s: seq<T>, p: T -> bool, q: T -> bool)
    requires forall x :: p(x) ==> q(x)
    ensures IsSubseq(Filter(s, p), Filter(s, q))
    ensures |Filter(s, p)| <= |Filter(s, q)|
  {
    if s != [] {
      FilterMonotone(s[1..], p, q);
      var fp, fq := Filter(s, p), Filter(s, q);
      if p(s[0]) {
        assert fp[0] == fq[0] && fp[1..] == Filter(s[1..], p) && fq[1..] == Filter(s[1..], q);
      } else if q(s[0]) {
        assert fq[1..] == Filter(s[1..], q);
        SubseqDropHead(fp, fq);
      }
    }
  }

  /** Filters on predicates that never hold together keep, between them,
      at most the whole list. */
  lemma {:induction false} FilterDisjoint<T>(s: seq<T>, p: T -> bool, q: T -> bool)
    requires forall x :: !(p(x) && q(x))
    ensures |Filter(s, p)| + |Filter(s, q)| <= |s|
  {
    if s != [] {
      FilterDisjoint(s[1..], p, q);
    }
  }

  /** Putting any element in front of the larger list keeps a subsequence. */
  lemma SubseqDropHead<T>(r: seq<T>, s: seq<T>)
    requires s != [] && IsSubseq(r, s[1..])
    ensures IsSubseq(r, s)
  {
  }

  /** Rewriting elements without changing whether they pass a filter
      commutes with that filter. */
  lemma {:induction false} FilterUpdateCommute<T>(s: seq<T>, p: T -> bool, hit: T -> bool, f: T -> T)
    requires forall x :: hit(x) ==> p(f(x)) == p(x)
    ensures Filter(Update(s, hit, f), p) == Update(Filter(s, p), hit, f)
  {
    if s != [] {
      var u := Update(s, hit, f);
      var head := if hit(s[0]) then f(s[0]) else s[0];
      assert u[0] == head && p(head) == p(s[0]);
      assert u[1..] == Update(s[1..], hit, f);
      FilterUpdateCommute(s[1..], p, hit, f);
      if p(s[0]) {
        UpdateCons(s[0], Filter(s[1..], p), hit, f);
      }
    }
  }

  lemma UpdateCons<T>(x: T, t: seq<T>, hit: T -> bool, f: T -> T)
    ensures Update([x] + t, hit, f) == [if hit(x) then f(x) else x] + Update(t, hit, f)
  {
    var l, r := Update([x] + t, hit, f), [if hit(x) then f(x) else x] + Update(t, hit, f);
    assert |l| == |r|;
    forall i | 0 <= i < |l| ensures l[i] == r[i] {
      if i > 0 {
        assert ([x] + t)[i] == t[i - 1];
      }
    }
  }

  /** A filter distributes over concatenation. */
  lemma {:induction false} FilterAppend<T>(s: seq<T>, t: seq<T>, p: T -> bool)
    ensures Filter(s + t, p) == Filter(s, p) + Filter(t, p)
  {
    if s == [] {
      assert s + t == t;
    } else {
      var st := s + t;
      assert st[0] == s[0] && st[1..] == s[1..] + t;
      FilterAppend(s[1..], t, p);
      if p(s[0]) {
        var a, b := Filter(s[1..], p), Filter(t, p);
        assert [s[0]] + (a + b) == ([s[0]] + a) + b;
      }
    }
  }

  /** What a filter keeps of one element. */
  function Keep<T>(x: T, p: T -> bool): seq<T>
  {
    if p(x) then [x] else []
  }

  lemma FilterCons<T>(x: T, s: seq<T>, p: T -> bool)
    ensures Filter([x] + s, p) == Keep(x, p) + Filter(s, p)
  {
    assert ([x] + s)[1..] == s;
  }

  /** A filter over a list of four, five or six elements, element by
      element. */
  lemma FilterFour<T>(a: T, b: T, c: T, d: T, p: T -> bool)
    ensures Filter([a, b, c, d], p) == Keep(a, p) + (Keep(b, p) + (Keep(c, p) + Keep(d, p)))
  {
    assert Filter([d], p) == Keep(d, p);
    FilterCons(c, [d], p);
    assert [c, d] == [c] + [d];
    FilterCons(b, [c, d], p);
    assert [b, c, d] == [b] + [c, d];
    FilterCons(a, [b, c, d], p);
    assert [a, b, c, d] == [a] + [b, c, d];
  }

  lemma FilterFive<T>(a: T, b: T, c: T, d: T, e: T, p: T -> bool)
    ensures Filter([a, b, c, d, e], p) == Keep(a, p) + (Keep(b, p) + (Keep(c, p) + (Keep(d, p) + Keep(e, p))))
  {
    FilterFour(b, c, d, e, p);
    FilterCons(a, [b, c, d, e], p);
    assert [a, b, c, d, e] == [a] + [b, c, d, e];
  }

  lemma FilterSix<T>(a: T, b: T, c: T, d: T, e: T, f: T, p: T -> bool)
    ensures Filter([a, b, c, d, e, f], p) == Keep(a, p) + (Keep(b, p) + (Keep(c, p) + (Keep(d, p) + (Keep(e, p) + Keep(f, p)))))
  {
    FilterFive(b, c, d, e, f, p);
    FilterCons(a, [b, c, d, e, f], p);
    assert [a, b, c, d, e, f] == [a] + [b, c, d, e, f];
  }
}
