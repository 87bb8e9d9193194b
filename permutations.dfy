/**
  * Reading a sequence back through an index map that sends [0, n) into
  * [0, n) without collisions yields a permutation of it. The transforms use
  * this to show that no pixel of a width × height image is lost or doubled.
  */
module Permutations {

  /** `p` maps [0, n) into [0, n) and no two positions to the same one. */
  ghost predicate InjectiveOn(p: int -> int, n: nat)
  {
    (forall k :: 0 <= k < n ==> 0 <= p(k) < n) &&
    (forall k1, k2 :: 0 <= k1 < n && 0 <= k2 < n && p(k1) == p(k2) ==> k1 == k2)
  }

  /** If t[k] == s[p(k)] for an injective p, then t is a permutation of s. */
  lemma {:induction false} ReindexedIsPermutation<T>(s: seq<T>, t: seq<T>, p: int -> int)
    requires |t| == |s| && InjectiveOn(p, |s|)
    requires forall k :: 0 <= k < |t| ==> t[k] == s[p(k)]
    ensures multiset(t) == multiset(s)
    decreases |s|
  {
    var n := |s|;
    if n > 0 {
      var j := p(n - 1);
      var s' := s[..j] + s[j + 1..];
      var t' := t[..n - 1];
      ShiftedPremises(s, t, p);
      ReindexedIsPermutation(s', t', Shifted(p, j));
      calc {
        multiset(t);
        { assert t == t' + [t[n - 1]]; }
        multiset(t') + multiset{t[n - 1]};
        multiset(s') + multiset{s[j]};
        { RemovedOne(s, j); }
        multiset(s);
      }
    }
  }

  /** Positions past the removed position j move down by one. */
  function Shifted(p: int -> int, j: int): (q: int -> int)
  {
    k => if p(k) < j then p(k) else p(k) - 1
  }

  /**
    * Removing the last element of t and its image s[p(n-1)] of s leaves a
    * pair related by the shifted index map, which is again injective.
    */
  lemma ShiftedPremises<T>(s: seq<T>, t: seq<T>, p: int -> int)
    requires |t| == |s| > 0 && InjectiveOn(p, |s|)
    requires forall k :: 0 <= k < |t| ==> t[k] == s[p(k)]
    ensures var n, j := |s|, p(|s| - 1);
      InjectiveOn(Shifted(p, j), n - 1) &&
      forall k :: 0 <= k < n - 1 ==> t[..n - 1][k] == (s[..j] + s[j + 1..])[Shifted(p, j)(k)]
  {
    var n, j := |s|, p(|s| - 1);
    var s', t', p' := s[..j] + s[j + 1..], t[..n - 1], Shifted(p, j);
    forall k | 0 <= k < n - 1
      ensures 0 <= p'(k) < n - 1 && t'[k] == s'[p'(k)]
    {
      assert p(k) != j;
      if p(k) < j {
        assert s'[p(k)] == s[p(k)];
      } else {
        assert s'[p(k) - 1] == s[p(k)];
      }
    }
    forall k1, k2 | 0 <= k1 < n - 1 && 0 <= k2 < n - 1 && p'(k1) == p'(k2)
      ensures k1 == k2
    {
      assert p(k1) != j && p(k2) != j;
      assert p(k1) == p(k2);
    }
  }

  /** Taking one element out and putting it back keeps the multiset. */
  lemma RemovedOne<T>(s: seq<T>, j: int)
    requires 0 <= j < |s|
    ensures multiset(s[..j] + s[j + 1..]) + multiset{s[j]} == multiset(s)
  {
    assert s == s[..j] + [s[j]] + s[j + 1..];
  }

  /** An index map with a left inverse on [0, n) is injective there. */
  lemma LeftInverseInjective(p: int -> int, q: int -> int, n: nat)
    requires forall k :: 0 <= k < n ==> 0 <= p(k) < n && q(p(k)) == k
    ensures InjectiveOn(p, n)
  {
    forall k1, k2 | 0 <= k1 < n && 0 <= k2 < n && p(k1) == p(k2)
      ensures k1 == k2
    {
      assert q(p(k1)) == k1 && q(p(k2)) == k2;
    }
  }
}
