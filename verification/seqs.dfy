/** The JavaScript array operations the particle system relies on:
    `indexOf`, `splice(start, 1)` and the pair `splice(indexOf(x), 1)`
    that removes a particle or a batch, plus an order-keeping filter
    used to describe what survives an update. */
module Seqs {

  /** No element occurs twice. */
  predicate Distinct<T(==)>(s: seq<T>) {
    forall i, j :: 0 <= i < j < |s| ==> s[i] != s[j]
  }

  /** `Array.prototype.indexOf`: the first position holding `x`, or -1. */
  function IndexOf<T(==)>(s: seq<T>, x: T): (k: int)
    ensures -1 <= k < |s|
    ensures k == -1 <==> x !in s
    ensures 0 <= k ==> s[k] == x && x !in s[..k]
  {
    if s == [] then -1
    else if s[0] == x then 0
    else
      var k := IndexOf(s[1..], x);
      if k == -1 then -1
      else
        assert s[..k + 1] == [s[0]] + s[1..][..k];
        k + 1
  }

  /** `Array.prototype.splice(start, 1)`: a negative `start` counts back
      from the end (clamped at 0), a `start` past the end removes nothing. */
  function SpliceOne<T>(s: seq<T>, start: int): (r: seq<T>)
    ensures |r| == if s != [] && start < |s| then |s| - 1 else |s|
    ensures r == s || exists k :: 0 <= k < |s| && r == s[..k] + s[k + 1..]
    ensures 0 <= start < |s| ==> r == s[..start] + s[start + 1..]
    ensures start < 0 && 0 <= |s| + start ==> r == s[..|s| + start] + s[|s| + start + 1..]
    ensures |s| + start < 0 && s != [] ==> r == s[1..]
    ensures |s| <= start ==> r == s
  {
    var at := if start < 0 then (if |s| + start < 0 then 0 else |s| + start)
              else (if start < |s| then start else |s|);
    if at < |s| then s[..at] + s[at + 1..] else s
  }

  /** The idiom `s.splice(s.indexOf(x), 1)`: it always removes one element
      of a non-empty array. Which one is the subject of `WithoutFirst` and
      `WithoutAbsentDropsLast`. */
  function Without<T(==)>(s: seq<T>, x: T): (r: seq<T>)
    ensures |r| == if s == [] then 0 else |s| - 1
  {
    SpliceOne(s, IndexOf(s, x))
  }

  /** Removing an element that is present takes out its first occurrence and
      keeps everything else in order. */
  lemma WithoutFirst<T>(a: seq<T>, x: T, b: seq<T>)
    requires x !in a
    ensures Without(a + [x] + b, x) == a + b
  {
    var s := a + [x] + b;
    var k := IndexOf(s, x);
    assert s[|a|] == x;
    assert k == |a|;
    assert s[..k] == a && s[k + 1..] == b;
  }

  /** The hazard the idiom carries: when `x` is absent, `indexOf` gives -1
      and `splice(-1, 1)` drops the LAST element instead. */
  lemma WithoutAbsentDropsLast<T>(s: seq<T>, x: T)
    requires x !in s && s != []
    ensures Without(s, x) == s[..|s| - 1]
  {
  }

  /** The elements of `s` that are in `keep`, in their original order. */
  function Filter<T(==)>(s: seq<T>, keep: set<T>): (r: seq<T>)
    ensures |r| <= |s|
    ensures forall i :: 0 <= i < |r| ==> r[i] in keep
  {
    if s == [] then []
    else (if s[0] in keep then [s[0]] else []) + Filter(s[1..], keep)
  }

  /** An element survives filtering exactly when it occurs in `s` and is
      kept. */
  lemma {:induction false} FilterMembers<T>(s: seq<T>, keep: set<T>, x: T)
    ensures x in Filter(s, keep) <==> x in s && x in keep
  {
    if s != [] {
      FilterMembers(s[1..], keep, x);
      assert x in s <==> x == s[0] || x in s[1..];
    }
  }

  /** Filtering a sequence without repetitions gives one without repetitions. */
  lemma {:induction false} FilterDistinct<T>(s: seq<T>, keep: set<T>)
    requires Distinct(s)
    ensures Distinct(Filter(s, keep))
  {
    if s != [] {
      assert Distinct(s[1..]) by {
        forall i, j | 0 <= i < j < |s[1..]| ensures s[1..][i] != s[1..][j] {
          assert s[1..][i] == s[i + 1] && s[1..][j] == s[j + 1];
        }
      }
      FilterDistinct(s[1..], keep);
      var rest := Filter(s[1..], keep);
      assert s[0] !in s[1..];
      FilterMembers(s[1..], keep, s[0]);
    }
  }

  /** `IndexOf` past a prefix that does not hold `x`. */
  lemma IndexOfAfter<T>(h: seq<T>, t: seq<T>, x: T)
    requires x !in h && x in t
    ensures IndexOf(h + t, x) == |h| + IndexOf(t, x)
  {
    var s := h + t;
    var k := IndexOf(s, x);
    var m := IndexOf(t, x);
    assert s[|h| + m] == x;
    assert k == |h| + m;
  }

  /** Surviving elements keep their relative order: of two kept elements,
      the earlier one in `s` is also the earlier one after filtering. */
  lemma {:induction false} FilterKeepsOrder<T>(s: seq<T>, keep: set<T>, i: nat, j: nat)
    requires Distinct(s)
    requires i < j < |s| && s[i] in keep && s[j] in keep
    ensures 0 <= IndexOf(Filter(s, keep), s[i]) < IndexOf(Filter(s, keep), s[j])
  {
    var head: seq<T> := if s[0] in keep then [s[0]] else [];
    var rest := Filter(s[1..], keep);
    assert Filter(s, keep) == head + rest;
    assert s[j] == s[1..][j - 1];
    assert s[j] != s[0];
    FilterMembers(s[1..], keep, s[j]);
    if i == 0 {
      assert head == [s[0]];
      IndexOfAfter(head, rest, s[j]);
    } else {
      assert s[i] == s[1..][i - 1];
      assert s[i] != s[0];
      assert Distinct(s[1..]) by {
        forall a, b | 0 <= a < b < |s[1..]| ensures s[1..][a] != s[1..][b] {
          assert s[1..][a] == s[a + 1] && s[1..][b] == s[b + 1];
        }
      }
      FilterKeepsOrder(s[1..], keep, i - 1, j - 1);
      IndexOfAfter(head, rest, s[i]);
      IndexOfAfter(head, rest, s[j]);
    }
  }

  /** One step of a backwards walk over `s` that filters the tail behind
      position `j`: the cut before `j` moves down by one, and `s[j]` joins
      the filtered tail exactly when it is kept. */
  lemma FilterStep<T>(s: seq<T>, j: nat, keep: set<T>)
    requires j < |s|
    ensures s[..j + 1] + Filter(s[j + 1..], keep) == s[..j] + [s[j]] + Filter(s[j + 1..], keep)
    ensures (s[..j + 1] + Filter(s[j + 1..], keep))[j] == s[j]
    ensures (s[..j + 1] + Filter(s[j + 1..], keep))[..j] == s[..j]
    ensures (s[..j + 1] + Filter(s[j + 1..], keep))[j + 1..] == Filter(s[j + 1..], keep)
    ensures s[j] in keep ==>
      s[..j] + [s[j]] + Filter(s[j + 1..], keep) == s[..j] + Filter(s[j..], keep)
    ensures s[j] !in keep ==> s[..j] + Filter(s[j + 1..], keep) == s[..j] + Filter(s[j..], keep)
  {
    assert s[..j + 1] == s[..j] + [s[j]];
    assert s[j..][0] == s[j] && s[j..][1..] == s[j + 1..];
    var rest := Filter(s[j + 1..], keep);
    assert s[..j] + [s[j]] + rest == s[..j] + ([s[j]] + rest);
  }

  /** Taking out position `j` of a sequence without repetitions leaves one
      without repetitions that no longer holds `s[j]`. */
  lemma DistinctRemove<T>(s: seq<T>, j: nat)
    requires Distinct(s) && j < |s|
    ensures s == s[..j] + [s[j]] + s[j + 1..]
    ensures Distinct(s[..j] + s[j + 1..])
    ensures s[j] !in s[..j] + s[j + 1..]
  {
    var r := s[..j] + s[j + 1..];
    assert forall i :: 0 <= i < |r| ==> r[i] == s[if i < j then i else i + 1];
  }
}
