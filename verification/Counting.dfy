/** Sizes of finite sets. */
module Counting {

  lemma SizeWithout<T>(s: set<T>, x: T)
    ensures |s - {x}| == |s| - if x in s then 1 else 0
  {
    if x !in s { assert s - {x} == s; }
  }

  /** Two sets that agree on everything but `x`. */
  lemma SizeChange<T>(before: set<T>, after: set<T>, x: T)
    requires before - {x} == after - {x}
    ensures |after| == |before| - (if x in before then 1 else 0) + (if x in after then 1 else 0)
  {
    SizeWithout(before, x);
    SizeWithout(after, x);
  }

  /** A number larger than all of a finite set. */
  lemma {:induction false} Beyond(ids: set<nat>) returns (n: nat)
    ensures forall r | r in ids :: r < n
    decreases |ids|
  {
    n := 0;
    if r :| r in ids {
      var m := Beyond(ids - {r});
      n := if r < m then m else r + 1;
      forall q | q in ids ensures q < n { assert q != r ==> q in ids - {r}; }
    }
  }

  lemma {:induction false} Subset<T>(a: set<T>, b: set<T>)
    requires a <= b
    ensures |a| <= |b|
  {
    assert b == a + (b - a);
  }
}
