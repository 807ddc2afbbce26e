/** Order facts about sequences: subsequences (what an order-preserving
    filter returns) and insertion-ordered sets (what a JavaScript `Set`
    yields through `Array.from`). */
module Seqs {

  /** Appending in two steps appends the two parts together. */
  lemma AppendAssoc<T>(a: seq<T>, b: seq<T>, c: seq<T>)
    ensures a + b + c == a + (b + c)
  {
  }

  /** `a` can be obtained from `b` by deleting elements, keeping the order
      of the rest. */
  predicate IsSubsequence<T(==)>(a: seq<T>, b: seq<T>)
    decreases |b|
  {
    a == [] || (b != [] && if a[0] == b[0] then IsSubsequence(a[1..], b[1..]) else IsSubsequence(a, b[1..]))
  }

  /** Prefixing the same element to both sides keeps a subsequence. */
  lemma SubsequenceCons<T>(x: T, a: seq<T>, b: seq<T>)
    requires IsSubsequence(a, b)
    ensures IsSubsequence([x] + a, [x] + b)
  {
    assert ([x] + a)[1..] == a;
    assert ([x] + b)[1..] == b;
  }

  /** Prefixing an element to the longer side keeps a subsequence. */
  lemma {:induction false} SubsequenceSkip<T>(x: T, a: seq<T>, b: seq<T>)
    requires IsSubsequence(a, b)
    ensures IsSubsequence(a, [x] + b)
    decreases |b|, 1
  {
    assert ([x] + b)[1..] == b;
    if a != [] && a[0] == x {
      SubsequenceDropHead(a, b);
    }
  }

  /** Dropping the head of a subsequence keeps a subsequence. */
  lemma {:induction false} SubsequenceDropHead<T>(a: seq<T>, b: seq<T>)
    requires a != [] && IsSubsequence(a, b)
    ensures IsSubsequence(a[1..], b)
    decreases |b|, 0
  {
    assert [b[0]] + b[1..] == b;
    if a[0] != b[0] {
      SubsequenceDropHead(a, b[1..]);
    }
    SubsequenceSkip(b[0], a[1..], b[1..]);
  }

  /** A subsequence is never longer than the sequence it was taken from. */
  lemma {:induction false} SubsequenceLength<T>(a: seq<T>, b: seq<T>)
    requires IsSubsequence(a, b)
    ensures |a| <= |b|
    decreases |b|
  {
    if a != [] {
      if a[0] == b[0] {
        SubsequenceLength(a[1..], b[1..]);
      } else {
        SubsequenceLength(a, b[1..]);
      }
    }
  }

  /** A subsequence that misses an element of the whole is strictly
      shorter than the whole. */
  lemma {:induction false} SubsequenceMissing<T>(a: seq<T>, b: seq<T>, x: T)
    requires IsSubsequence(a, b) && x in b && x !in a
    ensures |a| < |b|
    decreases |b|
  {
    if a == [] {
    } else if a[0] == b[0] {
      assert x != b[0];
      assert x in b[1..];
      SubsequenceMissing(a[1..], b[1..], x);
    } else {
      SubsequenceLength(a, b[1..]);
    }
  }

  /** `s.filter(keep)`: the elements `keep` accepts, in their original
      order, each as often as it occurs. */
  function Filter<T(==,!new)>(s: seq<T>, keep: T -> bool): (kept: seq<T>)
    ensures IsSubsequence(kept, s)
    ensures |kept| <= |s|
    ensures forall x :: x in kept <==> x in s && keep(x)
    ensures forall x :: multiset(kept)[x] == if keep(x) then multiset(s)[x] else 0
  {
    if s == [] then []
    else
      var rest := Filter(s[1..], keep);
      assert s == [s[0]] + s[1..];
      if keep(s[0]) then
        SubsequenceCons(s[0], rest, s[1..]);
        [s[0]] + rest
      else
        SubsequenceSkip(s[0], rest, s[1..]);
        rest
  }

  /** A filter that accepts everything keeps everything. */
  lemma {:induction false} FilterAll<T(!new)>(s: seq<T>, keep: T -> bool)
    requires forall x :: x in s ==> keep(x)
    ensures Filter(s, keep) == s
  {
    if s != [] {
      FilterAll(s[1..], keep);
    }
  }

  /** A filter that accepts nothing keeps nothing. */
  lemma FilterNone<T(!new)>(s: seq<T>, keep: T -> bool)
    requires forall x :: x in s ==> !keep(x)
    ensures Filter(s, keep) == []
  {
    if Filter(s, keep) != [] {
      assert Filter(s, keep)[0] in Filter(s, keep);
    }
  }

  /** `set.add(x)` on an insertion-ordered set kept as a sequence. */
  function AddIfAbsent<T(==)>(s: seq<T>, x: T): seq<T>
  {
    if x in s then s else s + [x]
  }

  /** The elements of `s` as a JavaScript `Set` built by adding them one at
      a time and read back with `Array.from`. */
  function Dedup<T(==)>(s: seq<T>): seq<T>
  {
    if s == [] then [] else AddIfAbsent(Dedup(s[..|s| - 1]), s[|s| - 1])
  }

  /** Adding one more element to the stream is one more `add`. */
  lemma DedupSnoc<T>(s: seq<T>, x: T)
    ensures Dedup(s + [x]) == AddIfAbsent(Dedup(s), x)
  {
    assert (s + [x])[..|s|] == s;
  }

  predicate NoDuplicates<T(==)>(s: seq<T>)
  {
    forall i, j :: 0 <= i < j < |s| ==> s[i] != s[j]
  }

  /** The index of the first occurrence of `x` in `s`. */
  function FirstIndex<T(==)>(s: seq<T>, x: T): (k: nat)
    requires x in s
    ensures k < |s| && s[k] == x && x !in s[..k]
  {
    if s[0] == x then 0
    else
      var k := 1 + FirstIndex(s[1..], x);
      assert s[..k] == [s[0]] + s[1..][..k - 1];
      k
  }

  /** Extending a sequence does not move the first occurrence of an element
      that was already there. */
  lemma FirstIndexPrefix<T>(p: seq<T>, q: seq<T>, x: T)
    requires x in p
    ensures FirstIndex(p + q, x) == FirstIndex(p, x)
  {
    var k, k' := FirstIndex(p, x), FirstIndex(p + q, x);
    assert forall i | 0 <= i < k :: (p + q)[i] == p[..k][i] != x;
    assert forall i | 0 <= i < k' :: (p + q)[i] == (p + q)[..k'][i] != x;
    assert (p + q)[k] == x;
  }

  /** What `Array.from(set)` promises: every element of the stream exactly
      once, nothing else, in the order of first occurrence. */
  lemma {:induction false} DedupFirstOccurrences<T>(s: seq<T>)
    ensures forall x :: x in Dedup(s) <==> x in s
    ensures NoDuplicates(Dedup(s))
    ensures forall i, j :: 0 <= i < j < |Dedup(s)| ==> FirstIndex(s, Dedup(s)[i]) < FirstIndex(s, Dedup(s)[j])
    decreases |s|
  {
    if s != [] {
      var p, x := s[..|s| - 1], s[|s| - 1];
      assert s == p + [x];
      DedupFirstOccurrences(p);
      var d := Dedup(p);
      forall y | y in p
        ensures FirstIndex(s, y) == FirstIndex(p, y)
      {
        FirstIndexPrefix(p, [x], y);
      }
      if x !in d {
        assert x !in p;
        assert FirstIndex(s, x) == |p| by {
          assert s[..|p|] == p;
        }
        forall i | 0 <= i < |d|
          ensures FirstIndex(s, d[i]) < FirstIndex(s, x)
        {
          assert d[i] in d;
        }
      }
    }
  }
}
