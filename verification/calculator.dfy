/** The probability and value calculator. Both analysers carry an identical
    copy of these two functions (scripts/analizador_odds.py and
    scripts/analizador_odds_player_props.py); the model defines them once. */
module Calculator {
  import opened Wrappers
  import opened Values

  /** `1 / odds if odds else None`: the probability a decimal price
      encodes. A missing or zero price yields None instead of dividing. */
  function ImpliedProbability(odds: Option<real>): (q: Option<real>)
    ensures q.None? <==> !TruthyNumber(odds)
    ensures q.Some? ==> q.value * odds.value == 1.0
    ensures q.Some? && odds.value > 0.0 ==> q.value > 0.0
    ensures q.Some? && odds.value >= 1.0 ==> q.value <= 1.0
  {
    if TruthyNumber(odds) then Some(1.0 / odds.value) else None
  }

  /** The relative edge `(p - q) / q` of a model probability `p` over the
      market's implied probability `q` equals `p * odds - 1`. */
  lemma RelativeEdge(p: real, odds: real)
    requires odds != 0.0
    ensures (p - 1.0 / odds) / (1.0 / odds) == p * odds - 1.0
  {
    var q := 1.0 / odds;
    assert q * odds == 1.0;
    assert (p - q) / q == p / q - 1.0;
    assert p / q == p * odds;
  }

  /** The expected value of a bet: `0` when the price or the model
      probability is falsy (`None`, `0`, empty); otherwise the relative edge
      `(p - q) / q` with `q = 1 / odds`. None stands for the TypeError the
      subtraction raises when the probability is a truthy non-number. */
  function ExpectedValue(prob: Value, odds: Option<real>): (r: Option<real>)
    ensures !TruthyNumber(odds) || !Truthy(prob) ==> r == Some(0.0)
    ensures TruthyNumber(odds) && prob.Num? && prob.x != 0.0 ==> r == Some(prob.x * odds.value - 1.0)
    ensures r.None? <==> TruthyNumber(odds) && prob.Other? && prob.truthy
  {
    if !TruthyNumber(odds) || !Truthy(prob) then Some(0.0)
    else
      // q is 1 / odds for a non-zero odds, never 0, so the source's
      // trailing `if prob_implicita else 0` always takes its first branch.
      var q := ImpliedProbability(odds).value;
      match prob
      case Num(p) =>
        var v := (p - q) / q;
        assert v == prob.x * odds.value - 1.0 by {
          assert q == 1.0 / odds.value && prob.x == p;
          RelativeEdge(p, odds.value);
        }
        Some(v)
      case _ => None
  }

  /** Value is positive exactly when the model probability exceeds the
      implied probability (for a positive price). */
  lemma ValuePositiveIffEdge(p: real, odds: real)
    requires odds > 0.0 && p != 0.0
    ensures ExpectedValue(Num(p), Some(odds)).value > 0.0 <==> p > ImpliedProbability(Some(odds)).value
  {
    var q := 1.0 / odds;
    assert q * odds == 1.0;
    if p > q {
      assert p * odds > q * odds;
    } else {
      assert p * odds <= q * odds;
    }
  }
}
