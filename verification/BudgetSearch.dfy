/** The search for the smallest memory budget that yields enough tokens
    (images/sglang/simulator-upstream/src/sglang_simulator/simulation/sglang/model_runner.py). */
module BudgetSearch {

  function Power2(k: nat): (p: nat)
    ensures p > k
  {
    if k == 0 then 1 else 2 * Power2(k - 1)
  }

  /** Some power of two yields enough. */
  ghost predicate DoublingEnds(resolved: nat -> int, target: int) {
    exists k: nat :: resolved(Power2(k)) >= target
  }

  /** More memory never yields fewer tokens. */
  ghost predicate NonDecreasing(resolved: nat -> int) {
    forall a: nat, b: nat :: 1 <= a <= b ==> resolved(a) <= resolved(b)
  }

  /** For a function that never decreases, reaching the target anywhere is enough. */
  lemma ReachableEndsDoubling(resolved: nat -> int, target: int, budget: nat)
    requires NonDecreasing(resolved) && budget >= 1 && resolved(budget) >= target
    ensures DoublingEnds(resolved, target)
  {
    assert resolved(budget) <= resolved(Power2(budget));
  }

  /** The bounds after `n` rounds of the doubling loop, which stands still once it has ended. */
  function Doubled(resolved: nat -> int, target: int, n: nat): (nat, nat) {
    if n == 0 then (0, 1)
    else
      var (lower, upper) := Doubled(resolved, target, n - 1);
      if resolved(upper) < target then (upper, upper * 2) else (lower, upper)
  }

  lemma {:induction false} DoublingGoesOn(resolved: nat -> int, target: int, n: nat)
    requires forall i: nat :: i < n ==> resolved(Power2(i)) < target
    ensures Doubled(resolved, target, n).1 == Power2(n)
  {
    if n > 0 { DoublingGoesOn(resolved, target, n - 1); }
  }

  /** The loop has ended after some number of rounds exactly when some power of two yields enough. */
  lemma DoublingEndsExactly(resolved: nat -> int, target: int)
    ensures DoublingEnds(resolved, target) <==> exists n: nat :: resolved(Doubled(resolved, target, n).1) >= target
  {
    if DoublingEnds(resolved, target) {
      var k: nat :| resolved(Power2(k)) >= target;
      FirstEnough(resolved, target, k);
    }
    if n: nat :| resolved(Doubled(resolved, target, n).1) >= target {
      DoublingIsPower(resolved, target, n);
    }
  }

  lemma {:induction false} FirstEnough(resolved: nat -> int, target: int, k: nat)
    requires resolved(Power2(k)) >= target
    ensures exists n: nat :: resolved(Doubled(resolved, target, n).1) >= target
  {
    if i: nat :| i < k && resolved(Power2(i)) >= target {
      FirstEnough(resolved, target, i);
    } else {
      DoublingGoesOn(resolved, target, k);
    }
  }

  lemma {:induction false} DoublingIsPower(resolved: nat -> int, target: int, n: nat)
    ensures exists k: nat :: Doubled(resolved, target, n).1 == Power2(k)
  {
    if n == 0 {
      assert Power2(0) == 1;
    } else {
      DoublingIsPower(resolved, target, n - 1);
      var k: nat :| Doubled(resolved, target, n - 1).1 == Power2(k);
      assert Power2(k + 1) == 2 * Power2(k);
    }
  }

  /** Double, then bisect. The result yields enough and, unless it is 1, the budget just below it does
      not; for a function that never decreases it is the least positive budget that yields enough. */
  method Search(resolved: nat -> int, target: int) returns (upper: nat)
    requires DoublingEnds(resolved, target)
    ensures upper >= 1 && resolved(upper) >= target
    ensures upper == 1 || resolved(upper - 1) < target
    ensures NonDecreasing(resolved) ==> forall b: nat :: 1 <= b < upper ==> resolved(b) < target
  {
    var lower: nat := 0;
    upper := 1;
    ghost var k: nat := 0;
    ghost var last: nat :| resolved(Power2(last)) >= target;
    while resolved(upper) < target
      invariant upper == Power2(k) && lower < upper
      invariant k <= last
      invariant lower == 0 || resolved(lower) < target
      decreases last - k
    {
      assert k < last;
      lower, upper := upper, upper * 2;
      k := k + 1;
    }
    while lower + 1 < upper
      invariant lower < upper && resolved(upper) >= target
      invariant lower == 0 || resolved(lower) < target
      decreases upper - lower
    {
      var middle: nat := (lower + upper) / 2;
      if resolved(middle) < target {
        lower := middle;
      } else {
        upper := middle;
      }
    }
    if NonDecreasing(resolved) {
      forall b: nat | 1 <= b < upper
        ensures resolved(b) < target
      {
        assert resolved(b) <= resolved(lower);
      }
    }
  }
}
