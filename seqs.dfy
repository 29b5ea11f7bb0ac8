/** Generic sequence queries and updates used to model the document stores. */
module Seqs {
  import opened Wrappers

  /** Index of the first element satisfying `p` (what `findOne` returns, in store order). */
  function FirstWhere<T>(s: seq<T>, p: T -> bool): (r: Option<nat>)
    ensures r.Some? ==> r.value < |s| && p(s[r.value])
    ensures r.Some? ==> forall j :: 0 <= j < r.value ==> !p(s[j])
    ensures r.None? <==> forall j :: 0 <= j < |s| ==> !p(s[j])
  {
    if |s| == 0 then None
    else if p(s[0]) then Some(0)
    else match FirstWhere(s[1..], p)
      case None => None
      case Some(k) => Some(k + 1)
  }

  /** The sequence without its element at position `i` (deleting one known document). */
  function RemoveAt<T>(s: seq<T>, i: nat): (r: seq<T>)
    requires i < |s|
    ensures |r| == |s| - 1
    ensures multiset(r) == multiset(s) - multiset{s[i]}
    ensures forall j :: 0 <= j < i ==> r[j] == s[j]
    ensures forall j :: i <= j < |r| ==> r[j] == s[j + 1]
  {
    assert s == s[..i] + [s[i]] + s[i + 1..];
    s[..i] + s[i + 1..]
  }

  /** The sequence without its first element satisfying `p` (`deleteOne(filter)`). */
  function RemoveFirst<T>(s: seq<T>, p: T -> bool): (r: seq<T>)
  {
    if |s| == 0 then []
    else if p(s[0]) then s[1..]
    else [s[0]] + RemoveFirst(s[1..], p)
  }

  /** Number of elements satisfying `p`. */
  function Count<T>(s: seq<T>, p: T -> bool): nat
  {
    if |s| == 0 then 0 else (if p(s[0]) then 1 else 0) + Count(s[1..], p)
  }

  /** The elements satisfying `p`, in order. */
  function Filter<T>(s: seq<T>, p: T -> bool): seq<T>
  {
    if |s| == 0 then [] else (if p(s[0]) then [s[0]] else []) + Filter(s[1..], p)
  }

  /** Removing the first match removes exactly one match when there is one, none otherwise. */
  lemma {:induction false} RemoveFirstCount<T>(s: seq<T>, p: T -> bool)
    ensures Count(RemoveFirst(s, p), p) == Count(s, p) - (if Count(s, p) > 0 then 1 else 0)
    ensures |RemoveFirst(s, p)| == |s| - (if Count(s, p) > 0 then 1 else 0)
  {
    if |s| > 0 && !p(s[0]) {
      RemoveFirstCount(s[1..], p);
      assert ([s[0]] + RemoveFirst(s[1..], p))[1..] == RemoveFirst(s[1..], p);
    }
  }

  /** Removing the first `p`-match leaves every element that `p` rejects in place. */
  lemma {:induction false} RemoveFirstKeepsOthers<T>(s: seq<T>, p: T -> bool, q: T -> bool)
    requires forall x :: q(x) ==> !p(x)
    ensures Filter(RemoveFirst(s, p), q) == Filter(s, q)
  {
    if |s| > 0 {
      if p(s[0]) {
        assert !q(s[0]);
      } else {
        RemoveFirstKeepsOthers(s[1..], p, q);
        assert ([s[0]] + RemoveFirst(s[1..], p))[1..] == RemoveFirst(s[1..], p);
      }
    }
  }

  /** With no match, nothing is removed. */
  lemma {:induction false} RemoveFirstNoMatch<T>(s: seq<T>, p: T -> bool)
    requires forall j :: 0 <= j < |s| ==> !p(s[j])
    ensures RemoveFirst(s, p) == s
  {
    if |s| > 0 {
      RemoveFirstNoMatch(s[1..], p);
    }
  }

  /** Removing the first match is removing the element at the index `FirstWhere` finds. */
  lemma {:induction false} RemoveFirstIsRemoveAt<T>(s: seq<T>, p: T -> bool)
    requires FirstWhere(s, p).Some?
    ensures RemoveFirst(s, p) == RemoveAt(s, FirstWhere(s, p).value)
  {
    if !p(s[0]) {
      RemoveFirstIsRemoveAt(s[1..], p);
      var k := FirstWhere(s[1..], p).value;
      var a, b := RemoveAt(s, k + 1), [s[0]] + RemoveAt(s[1..], k);
      assert |a| == |b|;
      forall j | 0 <= j < |a| ensures a[j] == b[j] {
        if j > 0 {
          assert b[j] == RemoveAt(s[1..], k)[j - 1];
        }
      }
      assert a == b;
    }
  }

  /** An element `p` rejects keeps its multiplicity when the first `p`-match is removed. */
  lemma {:induction false} RemoveFirstKeepsRejected<T>(s: seq<T>, p: T -> bool, x: T)
    requires !p(x)
    ensures multiset(RemoveFirst(s, p))[x] == multiset(s)[x]
  {
    if |s| > 0 {
      assert s == [s[0]] + s[1..];
      if !p(s[0]) {
        RemoveFirstKeepsRejected(s[1..], p, x);
      }
    }
  }
}
