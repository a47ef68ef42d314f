/** Sizes of finite sets and of the elements of a sequence. */
module Collections {
  function Elements(s: seq<nat>): set<nat> {
    set x | x in s
  }

  predicate Distinct(s: seq<nat>) {
    forall j, k :: 0 <= j < k < |s| ==> s[j] != s[k]
  }

  lemma {:induction false} DistinctAppend(s: seq<nat>, x: nat)
    requires Distinct(s) && x !in s
    ensures Distinct(s + [x])
  {
  }

  lemma {:induction false} SubsetSize(a: set<int>, b: set<int>)
    requires a <= b
    ensures |a| <= |b|
    ensures |a| == |b| ==> a == b
  {
    assert b == a + (b - a);
  }

  /** A sequence has at most as many elements as entries, and as many exactly if no entry repeats. */
  lemma {:induction false} ElementsSize(s: seq<nat>)
    ensures |Elements(s)| <= |s|
    ensures |Elements(s)| == |s| <==> Distinct(s)
  {
    if s == [] {
      assert Elements(s) == {};
    } else {
      var n := |s| - 1;
      ElementsSize(s[..n]);
      assert s == s[..n] + [s[n]];
      assert Elements(s) == Elements(s[..n]) + {s[n]};
      assert Distinct(s) <==> Distinct(s[..n]) && s[n] !in s[..n];
    }
  }

  /** The numbers 0, ..., n - 1. */
  function Below(n: nat): (s: set<nat>)
    ensures |s| == n
    ensures forall i: nat :: i in s <==> i < n
  {
    if n == 0 then {} else Below(n - 1) + {n - 1}
  }

  /** The elements of a finite set, each once. */
  lemma {:induction false} Listed(s: set<nat>) returns (list: seq<nat>)
    ensures Distinct(list) && forall x: nat :: x in list <==> x in s
  {
    list := [];
    var rest := s;
    while rest != {}
      invariant Distinct(list) && rest <= s
      invariant forall x: nat :: x in list <==> x in s && x !in rest
      decreases |rest|
    {
      var x :| x in rest;
      DistinctAppend(list, x);
      list, rest := list + [x], rest - {x};
    }
  }
}
