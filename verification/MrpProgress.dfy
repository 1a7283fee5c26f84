/** How often a loop turns whose cursor moves ahead by a least step. */
module MrpProgress {

  /** The positions rise by `step` at least, and all but the last are inside the frame. */
  ghost predicate Rises(stops: seq<nat>, step: nat, size: nat) {
    forall i | 0 <= i < |stops| - 1 :: stops[i] + step <= stops[i + 1] && stops[i] < size
  }

  lemma RisesCons(p: nat, rest: seq<nat>, step: nat, size: nat)
    requires Rises(rest, step, size) && rest != [] && p + step <= rest[0] && p < size
    ensures Rises([p] + rest, step, size)
  {
    var stops := [p] + rest;
    forall i | 0 <= i < |stops| - 1 ensures stops[i] + step <= stops[i + 1] && stops[i] < size {
      if i > 0 {
        assert stops[i] == rest[i - 1] && stops[i + 1] == rest[i];
      }
    }
  }

  lemma NoRise(p: nat, step: nat, size: nat)
    ensures Rises([p], step, size)
  {}

  lemma {:induction false} RiseBound(stops: seq<nat>, step: nat, size: nat)
    requires Rises(stops, step, size)
    ensures |stops| > 1 ==> stops[0] + step * (|stops| - 2) < size
    ensures step * (|stops| - 2) <= size
    decreases |stops|
  {
    if |stops| > 2 {
      var rest := stops[1..];
      assert stops[0] + step <= stops[1];
      forall i | 0 <= i < |rest| - 1 ensures rest[i] + step <= rest[i + 1] && rest[i] < size {
        assert stops[i + 1] + step <= stops[i + 1 + 1];
      }
      RiseBound(rest, step, size);
      assert step * (|stops| - 2) == step * (|rest| - 2) + step;
    }
  }
}
