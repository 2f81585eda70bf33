/** Order-preserving list operations used across the application: JavaScript's
    `Array.prototype.filter`, `slice(0, n)` and the concatenation of a list
    of lists (string accumulation with `+=`, `join("")`, `flatMap`). */
module Seqs {
  import opened Options

  /** `s.filter(p)`: the elements satisfying `p`, in their original order. */
  function Filter<T>(s: seq<T>, p: T -> bool): (r: seq<T>)
    ensures |r| <= |s|
    ensures forall i :: 0 <= i < |r| ==> p(r[i])
  {
    if s == [] then []
    else if p(s[0]) then [s[0]] + Filter(s[1..], p)
    else Filter(s[1..], p)
  }

  /** `a` is `b` with some elements dropped, the rest kept in order. */
  predicate IsSubsequence<T(==)>(a: seq<T>, b: seq<T>)
    decreases |b|
  {
    if a == [] then true
    else if b == [] then false
    else (a[0] == b[0] && IsSubsequence(a[1..], b[1..])) || IsSubsequence(a, b[1..])
  }

  /** An element is kept by a filter exactly when it is in the list and
      satisfies the predicate. */
  lemma {:induction false} FilterMembership<T>(s: seq<T>, p: T -> bool, x: T)
    ensures x in Filter(s, p) <==> x in s && p(x)
  {
    if s != [] {
      FilterMembership(s[1..], p, x);
      assert s == [s[0]] + s[1..];
    }
  }

  /** A filter keeps the order of the elements it keeps. */
  lemma {:induction false} FilterIsSubsequence<T>(s: seq<T>, p: T -> bool)
    ensures IsSubsequence(Filter(s, p), s)
  {
    if s != [] {
      FilterIsSubsequence(s[1..], p);
      var r := Filter(s[1..], p);
      if p(s[0]) {
        assert ([s[0]] + r)[1..] == r;
      } else if r != [] {
        SubsequenceOfTail(r, s);
      }
    }
  }

  lemma SubsequenceOfTail<T>(a: seq<T>, b: seq<T>)
    requires b != [] && a != [] && IsSubsequence(a, b[1..])
    ensures IsSubsequence(a, b)
  {
  }

  /** A filter keeps every occurrence of every element it keeps, and none of
      the others. */
  lemma {:induction false} FilterCounts<T>(s: seq<T>, p: T -> bool, x: T)
    ensures multiset(Filter(s, p))[x] == if p(x) then multiset(s)[x] else 0
  {
    if s != [] {
      FilterCounts(s[1..], p, x);
      assert s == [s[0]] + s[1..];
    }
  }

  /** Filtering a list whose every element passes leaves it unchanged. */
  lemma {:induction false} FilterAllPass<T>(s: seq<T>, p: T -> bool)
    requires forall i :: 0 <= i < |s| ==> p(s[i])
    ensures Filter(s, p) == s
  {
    if s != [] {
      FilterAllPass(s[1..], p);
      assert s == [s[0]] + s[1..];
    }
  }

  /** Filtering distributes over concatenation. */
  lemma {:induction false} FilterAppend<T>(a: seq<T>, b: seq<T>, p: T -> bool)
    ensures Filter(a + b, p) == Filter(a, p) + Filter(b, p)
  {
    if a == [] {
      assert a + b == b;
    } else {
      assert (a + b)[0] == a[0];
      assert (a + b)[1..] == a[1..] + b;
      FilterAppend(a[1..], b, p);
    }
  }

  /** `s.slice(0, n)`: at most the first `n` elements. */
  function Take<T>(s: seq<T>, n: nat): (r: seq<T>)
    ensures |r| == if |s| < n then |s| else n
    ensures r == s[..|r|]
  {
    if |s| <= n then s else s[..n]
  }

  /** The parts written one after another (`join("")`, `flat()`). */
  function Concat<T>(parts: seq<seq<T>>): (r: seq<T>)
    ensures |parts| == 1 ==> r == parts[0]
  {
    if parts == [] then [] else Concat(parts[..|parts| - 1]) + parts[|parts| - 1]
  }

  /** Concatenation distributes over appending lists of parts. */
  lemma {:induction false} ConcatAppend<T>(a: seq<seq<T>>, b: seq<seq<T>>)
    ensures Concat(a + b) == Concat(a) + Concat(b)
  {
    if b == [] {
      assert a + b == a;
    } else {
      assert (a + b)[..|a + b| - 1] == a + b[..|b| - 1];
      ConcatAppend(a, b[..|b| - 1]);
    }
  }

  /** Where part `i` begins in `Concat(parts)`. */
  function Offset<T>(parts: seq<seq<T>>, i: nat): nat
    requires i <= |parts|
  {
    |Concat(parts[..i])|
  }

  /** Part `i` stands unmodified in the concatenation, at its offset, right
      after the parts before it. */
  lemma PartAt<T>(parts: seq<seq<T>>, i: nat)
    requires i < |parts|
    ensures StandsAt(Concat(parts), Offset(parts, i), parts[i])
    ensures Offset(parts, i + 1) == Offset(parts, i) + |parts[i]|
  {
    assert parts == parts[..i + 1] + parts[i + 1..];
    ConcatAppend(parts[..i + 1], parts[i + 1..]);
    assert parts[..i + 1][..i] == parts[..i];
    MiddleStands(Concat(parts[..i]), parts[i], Concat(parts[i + 1..]));
  }

  /** `s.findIndex(p)`: the index of the first element satisfying `p`, or -1
      when there is none. */
  function FindIndex<T>(s: seq<T>, p: T -> bool): (r: int)
    ensures -1 <= r < |s|
    ensures r >= 0 ==> p(s[r]) && forall j :: 0 <= j < r ==> !p(s[j])
    ensures r == -1 ==> forall j :: 0 <= j < |s| ==> !p(s[j])
  {
    if s == [] then -1
    else if p(s[0]) then 0
    else
      var k := FindIndex(s[1..], p);
      if k == -1 then -1 else k + 1
  }

  /** `s.find(p)`: the first element satisfying `p`, if any. */
  function Find<T>(s: seq<T>, p: T -> bool): (r: Option<T>)
    ensures r.Some? <==> exists i :: 0 <= i < |s| && p(s[i])
    ensures r.Some? ==> p(r.value) && exists i :: 0 <= i < |s| && s[i] == r.value && forall j :: 0 <= j < i ==> !p(s[j])
  {
    var k := FindIndex(s, p);
    if k == -1 then None else Some(s[k])
  }

  /** `x` stands in `m` from index `at` on. */
  predicate StandsAt<T(==)>(m: seq<T>, at: int, x: seq<T>) {
    0 <= at && at + |x| <= |m| && forall j :: 0 <= j < |x| ==> m[at + j] == x[j]
  }

  /** The middle part of a three-part concatenation stands after the first. */
  lemma MiddleStands<T>(a: seq<T>, b: seq<T>, c: seq<T>)
    ensures StandsAt(a + b + c, |a|, b)
  {
    forall j | 0 <= j < |b|
      ensures (a + b + c)[|a| + j] == b[j]
    {
    }
  }

  /** What stands in a part that stands in `m` stands in `m`. */
  lemma StandsWithin<T>(m: seq<T>, at: int, x: seq<T>, at2: int, y: seq<T>)
    requires StandsAt(m, at, x) && StandsAt(x, at2, y)
    ensures StandsAt(m, at + at2, y)
  {
    forall j | 0 <= j < |y|
      ensures m[at + at2 + j] == y[j]
    {
      assert m[at + (at2 + j)] == x[at2 + j];
    }
  }

  /** The three parts of a concatenation that stands in `m`. */
  lemma StandsInParts<T>(m: seq<T>, at: int, a: seq<T>, b: seq<T>, c: seq<T>)
    requires StandsAt(m, at, a + b + c)
    ensures StandsAt(m, at, a) && StandsAt(m, at + |a|, b) && StandsAt(m, at + |a| + |b|, c)
  {
    var x := a + b + c;
    forall j | 0 <= j < |a|
      ensures m[at + j] == a[j]
    {
      assert x[j] == a[j];
    }
    forall j | 0 <= j < |b|
      ensures m[at + |a| + j] == b[j]
    {
      assert m[at + (|a| + j)] == x[|a| + j] == b[j];
    }
    forall j | 0 <= j < |c|
      ensures m[at + |a| + |b| + j] == c[j]
    {
      assert m[at + (|a| + |b| + j)] == x[|a| + |b| + j] == c[j];
    }
  }

  /** Part `k` stands at its offset in a text that embeds the
      concatenation. */
  lemma PartInside<T>(m: seq<T>, pre: seq<T>, parts: seq<seq<T>>, post: seq<T>, k: nat)
    requires k < |parts| && m == pre + Concat(parts) + post
    ensures StandsAt(m, |pre| + Offset(parts, k), parts[k])
  {
    PartAt(parts, k);
    MiddleStands(pre, Concat(parts), post);
    StandsWithin(m, |pre|, Concat(parts), Offset(parts, k), parts[k]);
  }

  /** Concatenation is associative. */
  lemma Assoc<T>(a: seq<T>, b: seq<T>, c: seq<T>)
    ensures a + b + c == a + (b + c)
  {
  }

  /** `StandsAt` restated over equal arguments. */
  lemma StandsMoved<T>(m: seq<T>, at: int, x: seq<T>, m2: seq<T>, at2: int, x2: seq<T>)
    requires StandsAt(m, at, x) && m == m2 && at == at2 && x == x2
    ensures StandsAt(m2, at2, x2)
  {
  }

  /** A text stands at the start of any extension of it. */
  lemma PrefixStands<T>(a: seq<T>, b: seq<T>)
    ensures StandsAt(a + b, 0, a)
  {
    forall j | 0 <= j < |a|
      ensures (a + b)[j] == a[j]
    {
    }
  }

  /** A text stands after whatever precedes it. */
  lemma SuffixStands<T>(a: seq<T>, b: seq<T>)
    ensures StandsAt(a + b, |a|, b)
  {
    forall j | 0 <= j < |b|
      ensures (a + b)[|a| + j] == b[j]
    {
    }
  }

  /** In a four-part text whose second part is a concatenation, part `k`
      of it stands at its offset after the first part. */
  lemma PartOfSecond<T>(a: seq<T>, parts: seq<seq<T>>, c: seq<T>, d: seq<T>, k: nat)
    requires k < |parts|
    ensures StandsAt(a + Concat(parts) + c + d, |a| + Offset(parts, k), parts[k])
  {
    var x := Concat(parts);
    PartAt(parts, k);
    SuffixStands(a, x);
    PrefixStands(a + x, c);
    PrefixStands(a + x + c, d);
    StandsWithin(a + x + c, 0, a + x, |a|, x);
    StandsWithin(a + x + c + d, 0, a + x + c, |a|, x);
    StandsWithin(a + x + c + d, |a|, x, Offset(parts, k), parts[k]);
  }

  /** In a four-part text whose last part is a concatenation, part `k` of it
      stands at its offset after the first three parts. */
  lemma PartOfFourth<T>(a: seq<T>, b: seq<T>, c: seq<T>, parts: seq<seq<T>>, k: nat)
    requires k < |parts|
    ensures StandsAt(a + b + c + Concat(parts), |a| + |b| + |c| + Offset(parts, k), parts[k])
  {
    PartAt(parts, k);
    SuffixStands(a + b + c, Concat(parts));
    StandsWithin(a + b + c + Concat(parts), |a + b + c|, Concat(parts), Offset(parts, k), parts[k]);
  }

  /** The third part of a four-part text stands after the first two. */
  lemma ThirdStands<T>(a: seq<T>, b: seq<T>, c: seq<T>, d: seq<T>)
    ensures StandsAt(a + b + c + d, |a| + |b|, c)
  {
    MiddleStands(a + b, c, d);
  }

  /** One more part appended to a prefix of the parts. */
  lemma ConcatStep<T>(parts: seq<seq<T>>, i: nat)
    requires i < |parts|
    ensures Concat(parts[..i + 1]) == Concat(parts[..i]) + parts[i]
  {
    assert parts[..i + 1][..i] == parts[..i];
  }

  /** All the parts. */
  lemma ConcatAll<T>(parts: seq<seq<T>>)
    ensures Concat(parts[..|parts|]) == Concat(parts)
  {
    assert parts[..|parts|] == parts;
  }

  /** Each part filtered on its own. */
  function FilterEach<T>(parts: seq<seq<T>>, p: T -> bool): (r: seq<seq<T>>)
    ensures |r| == |parts|
    ensures forall i :: 0 <= i < |parts| ==> r[i] == Filter(parts[i], p)
  {
    seq(|parts|, i requires 0 <= i < |parts| => Filter(parts[i], p))
  }

  /** Filtering part by part and then joining is filtering the joined
      parts. */
  lemma {:induction false} FilterConcat<T>(parts: seq<seq<T>>, p: T -> bool)
    ensures Concat(FilterEach(parts, p)) == Filter(Concat(parts), p)
  {
    if parts != [] {
      var n := |parts| - 1;
      FilterConcat(parts[..n], p);
      assert FilterEach(parts, p)[..n] == FilterEach(parts[..n], p);
      FilterAppend(Concat(parts[..n]), parts[n], p);
    }
  }
}
