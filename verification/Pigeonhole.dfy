module Pigeonhole {
  /** Distinct numbers below n are at most n. */
  lemma {:induction false} FilledBound(ix: seq<int>, n: nat)
    requires forall s :: 0 <= s < |ix| ==> 0 <= ix[s] < n
    requires forall s, t :: 0 <= s < t < |ix| ==> ix[s] != ix[t]
    ensures |ix| <= n
    decreases n
  {
    if ix != [] {
      assert 0 <= ix[0] < n;
      if n - 1 in ix {
        var s :| 0 <= s < |ix| && ix[s] == n - 1;
        FilledBound(ix[..s] + ix[s + 1..], n - 1);
      } else {
        FilledBound(ix, n - 1);
      }
    }
  }
}
