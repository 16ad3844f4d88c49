/** What calls on an `Amount` do in combination: the round-trips between `add`
    and `subtract`, merging of adds, and the non-negative balance that a
    sequence of credits and subtracts keeps. */
module AmountLaws {
  import opened Amounts

  /** `add(a)` then `subtract(a)` succeeds, and gives back the starting value,
      exactly when the starting value is not negative. */
  lemma AddThenSubtract(value: int, a: int)
    ensures OutcomeOf(Step(value, Add(a)), Subtract(a)) == Pass <==> value >= 0
    ensures value >= 0 ==> Step(Step(value, Add(a)), Subtract(a)) == value
    ensures value < 0 ==> Step(Step(value, Add(a)), Subtract(a)) == value + a
  {
  }

  /** A `subtract(a)` that succeeds is undone by `add(a)`. */
  lemma SubtractThenAdd(value: int, a: int)
    requires OutcomeOf(value, Subtract(a)) == Pass
    ensures Step(Step(value, Subtract(a)), Add(a)) == value
  {
  }

  /** Two adds leave the same value as one add of their sum. */
  lemma AddAdd(value: int, a: int, b: int)
    ensures Step(Step(value, Add(a)), Add(b)) == Step(value, Add(a + b))
  {
  }

  /** Running `xs` and then `ys` is running their concatenation. */
  lemma {:induction false} ReplayAppend(value: int, xs: seq<Op>, ys: seq<Op>)
    ensures Replay(value, xs + ys) == Replay(Replay(value, xs), ys)
    decreases |xs|
  {
    if xs == [] {
      assert xs + ys == ys;
    } else {
      assert (xs + ys)[0] == xs[0];
      assert (xs + ys)[1..] == xs[1..] + ys;
      ReplayAppend(Step(value, xs[0]), xs[1..], ys);
    }
  }

  predicate OnlyAdds(ops: seq<Op>) {
    forall i :: 0 <= i < |ops| ==> ops[i].Add?
  }

  /** The sum of the arguments of the calls `ops`. */
  function Total(ops: seq<Op>): (r: int)
    decreases |ops|
  {
    if ops == [] then 0 else ops[0].amount + Total(ops[1..])
  }

  /** Any run of adds leaves the same value as one add of their total. */
  lemma {:induction false} ReplayAdds(value: int, ops: seq<Op>)
    requires OnlyAdds(ops)
    ensures Replay(value, ops) == value + Total(ops)
    decreases |ops|
  {
    if ops != [] {
      assert ops[0].Add?;
      ReplayAdds(value + ops[0].amount, ops[1..]);
    }
  }

  /** Every add in `ops` credits a non-negative amount; subtracts are free. */
  predicate NonNegativeAdds(ops: seq<Op>) {
    forall i :: 0 <= i < |ops| ==> ops[i].Add? ==> ops[i].amount >= 0
  }

  /** An object that starts non-negative stays non-negative through any run of
      non-negative adds and arbitrary subtracts, failed ones included. */
  lemma {:induction false} ReplayKeepsNonNegative(value: int, ops: seq<Op>)
    requires value >= 0
    requires NonNegativeAdds(ops)
    ensures Replay(value, ops) >= 0
    decreases |ops|
  {
    if ops != [] {
      assert ops[0].Add? ==> ops[0].amount >= 0;
      assert NonNegativeAdds(ops[1..]) by {
        forall i | 0 <= i < |ops[1..]| ensures ops[1..][i].Add? ==> ops[1..][i].amount >= 0 {
          assert ops[1..][i] == ops[i + 1];
        }
      }
      ReplayKeepsNonNegative(Step(value, ops[0]), ops[1..]);
    }
  }

  /** Whatever came before, a run that ends with a successful subtract leaves
      a non-negative value. */
  lemma EndsWithSuccessfulSubtract(value: int, ops: seq<Op>, a: int)
    requires OutcomeOf(Replay(value, ops), Subtract(a)) == Pass
    ensures Replay(value, ops + [Subtract(a)]) >= 0
  {
    ReplayAppend(value, ops, [Subtract(a)]);
  }
}
