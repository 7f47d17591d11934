/** The quorum test of the proposer and the set arithmetic behind it. */
module Quorum {

  /** The least integer not below `x`. */
  function Ceil(x: real): int {
    -((-x).Floor)
  }

  /** The test that makes an attempt give up: `count` answers out of `n` replicas are too few.
      It asks for half of the replicas, rounded up, which is a majority only when `n` is odd. */
  predicate NoQuorum(count: nat, n: nat): (tooFew: bool)
    ensures tooFew <==> count < (n + 1) / 2
  {
    count <= Ceil(n as real / 2.0) - 1
  }

  function Elems<T>(s: seq<T>): set<T> {
    set x | x in s
  }

  /** No element occurs twice. */
  ghost predicate Distinct<T>(s: seq<T>) {
    |Elems(s)| == |s|
  }

  lemma ElemsSplit<T>(s: seq<T>, k: nat)
    requires k <= |s|
    ensures Elems(s) == Elems(s[..k]) + Elems(s[k..])
  {
    assert s == s[..k] + s[k..];
  }

  lemma {:induction false} ElemsSize<T>(s: seq<T>)
    ensures |Elems(s)| <= |s|
  {
    if s != [] {
      ElemsSize(s[1..]);
      assert Elems(s) == {s[0]} + Elems(s[1..]);
    }
  }

  /** An element of a distinct sequence does not occur before its place, and the part before it is distinct. */
  lemma NotBefore<T>(s: seq<T>, k: nat)
    requires Distinct(s) && k < |s|
    ensures s[k] !in s[..k] && Distinct(s[..k])
  {
    ElemsSplit(s, k);
    ElemsSize(s[..k]);
    ElemsSize(s[k + 1..]);
    assert Elems(s[k..]) == {s[k]} + Elems(s[k + 1..]);
    var before, after := s[..k], s[k + 1..];
    assert s[k] in before ==> Elems(s) == Elems(before) + Elems(after);
  }

  lemma SubsetSize<T>(a: set<T>, b: set<T>)
    requires a <= b
    ensures |a| <= |b|
  {
    assert b == a + (b - a);
  }

  /** For an odd number of replicas, any two sets that pass the quorum test share a replica. */
  lemma OddQuorumsMeet<T>(members: set<T>, p: set<T>, q: set<T>)
    requires |members| % 2 == 1
    requires p <= members && q <= members
    requires !NoQuorum(|p|, |members|) && !NoQuorum(|q|, |members|)
    ensures p * q != {}
  {
    SubsetSize(p + q, members);
  }

  /** For an even number of replicas the bound is sharp: there are two disjoint sets that both pass. */
  lemma EvenQuorumsSplit<T>(members: seq<T>) returns (p: set<T>, q: set<T>)
    requires Distinct(members) && |members| % 2 == 0
    ensures p + q == Elems(members) && p * q == {}
    ensures |p| == |q| == |members| / 2
    ensures !NoQuorum(|p|, |members|) && !NoQuorum(|q|, |members|)
  {
    var h := |members| / 2;
    p, q := Elems(members[..h]), Elems(members[h..]);
    ElemsSplit(members, h);
    ElemsSize(members[..h]);
    ElemsSize(members[h..]);
  }

  ghost predicate PassesTest<T>(p: set<T>, members: set<T>) {
    p <= members && !NoQuorum(|p|, |members|)
  }

  /** Any two sets of replicas that pass the quorum test share a replica if and only if their number is odd. */
  lemma QuorumsMeetExactlyWhenOdd<T(!new)>(members: seq<T>)
    requires Distinct(members)
    ensures |members| % 2 == 1 <==>
            forall p, q :: PassesTest(p, Elems(members)) && PassesTest(q, Elems(members)) ==> p * q != {}
  {
    if |members| % 2 == 1 {
      forall p, q | PassesTest(p, Elems(members)) && PassesTest(q, Elems(members)) ensures p * q != {} {
        OddQuorumsMeet(Elems(members), p, q);
      }
    } else {
      var p, q := EvenQuorumsSplit(members);
      assert PassesTest(p, Elems(members)) && PassesTest(q, Elems(members));
    }
  }
}
