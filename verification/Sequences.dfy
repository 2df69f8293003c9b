/** Facts about sequences used in more than one place. */
module Sequences {

  /** Taking the head of `first` out of its permutation `second` leaves a permutation of the tail. */
  lemma TakeOut<T>(first: seq<T>, second: seq<T>) returns (k: nat, without: seq<T>)
    requires first != [] && multiset(first) == multiset(second)
    ensures k < |second| && second[k] == first[0]
    ensures without == second[..k] + second[k + 1..]
    ensures multiset(first[1..]) == multiset(without)
  {
    assert first[0] in multiset(second);
    k :| 0 <= k < |second| && second[k] == first[0];
    without := second[..k] + second[k + 1..];
    assert second == second[..k] + [second[k]] + second[k + 1..];
    assert first == [first[0]] + first[1..];
    calc {
      multiset(first[1..]);
      multiset(first) - multiset{first[0]};
      multiset(second) - multiset{first[0]};
      multiset(without);
    }
  }
}
