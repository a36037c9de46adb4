/** What steps numbered in a run say about the whole of it. */
module RunLemmas {

  /** What holds at first and is kept exactly by undisturbed steps holds later iff no step disturbed it. */
  lemma {:induction false} KeptIff(holds: nat -> bool, disturbed: nat -> bool, i: nat, k: nat)
    requires i <= k && holds(i)
    requires forall j: nat | i <= j < k :: holds(j + 1) <==> holds(j) && !disturbed(j)
    ensures holds(k) <==> forall j: nat | i <= j < k :: !disturbed(j)
    decreases k
  {
    if i < k {
      KeptIff(holds, disturbed, i, k - 1);
      assert holds(k - 1 + 1) <==> holds(k - 1) && !disturbed(k - 1);
    }
  }

  /** Something of the first kind happened at or after i, and nothing of the second kind since, before k. */
  ghost predicate Since(first: nat -> bool, second: nat -> bool, i: nat, k: nat) {
    exists j: nat | i <= j < k :: first(j) && forall m: nat | j < m < k :: !second(m)
  }

  lemma {:induction false} SinceStep(first: nat -> bool, second: nat -> bool, i: nat, k: nat)
    requires i <= k
    ensures Since(first, second, i, k + 1) <==> first(k) || (Since(first, second, i, k) && !second(k))
  {
    if Since(first, second, i, k) && !second(k) {
      var j: nat :| i <= j < k && first(j) && forall m: nat | j < m < k :: !second(m);
      assert forall m: nat | j < m < k + 1 :: !second(m);
    }
    if Since(first, second, i, k + 1) && !first(k) {
      var j: nat :| i <= j < k + 1 && first(j) && forall m: nat | j < m < k + 1 :: !second(m);
      assert j < k && forall m: nat | j < m < k :: !second(m);
    }
  }
}
