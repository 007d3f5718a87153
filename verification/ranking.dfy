/** The recommendation policy shared by both analysers: the fixed value
    tiers, and the choice of the top recommendation. */
module Ranking {
  import opened Wrappers
  import Seqs

  datatype Tier = StrongBet | Bet | NoBet

  /** Strength order of the tiers. */
  function Rank(t: Tier): nat {
    match t
    case NoBet => 0
    case Bet => 1
    case StrongBet => 2
  }

  /** `'STRONG BET' if value > 0.15 else ('BET' if value > 0.05 else 'NO BET')`. */
  function TierOf(value: real): (t: Tier)
    ensures t == StrongBet <==> value > 0.15
    ensures t == Bet <==> 0.05 < value <= 0.15
    ensures t == NoBet <==> value <= 0.05
  {
    if value > 0.15 then StrongBet else if value > 0.05 then Bet else NoBet
  }

  /** A larger value never gets a weaker tier. */
  lemma TierMonotone(v: real, w: real)
    requires v <= w
    ensures Rank(TierOf(v)) <= Rank(TierOf(w))
  {
  }

  /** Position `i` holds a maximal key, and every earlier key is smaller. */
  ghost predicate IsFirstMax<T>(xs: seq<T>, key: T -> real, i: int) {
    && 0 <= i < |xs|
    && (forall j :: 0 <= j < |xs| ==> key(xs[j]) <= key(xs[i]))
    && (forall j :: 0 <= j < i ==> key(xs[j]) < key(xs[i]))
  }

  /** `max(recs, key=...) if recs else None`: None for an empty list,
      otherwise the first element whose key is maximal. */
  function TopBy<T>(xs: seq<T>, key: T -> real): (r: Option<T>)
    ensures r.None? <==> |xs| == 0
    ensures r.Some? ==> exists i :: IsFirstMax(xs, key, i) && xs[i] == r.value
  {
    if |xs| == 0 then None
    else
      var keys := seq(|xs|, j requires 0 <= j < |xs| => key(xs[j]));
      var i := Seqs.FirstMaxIndex(keys);
      assert IsFirstMax(xs, key, i) by {
        assert forall j :: 0 <= j < |xs| ==> keys[j] == key(xs[j]);
      }
      Some(xs[i])
  }

  /** When every element's tier follows its value, the top element has the
      strongest tier in the list. */
  lemma TopHasStrongestTier<T>(xs: seq<T>, key: T -> real, tier: T -> Tier)
    requires forall j :: 0 <= j < |xs| ==> tier(xs[j]) == TierOf(key(xs[j]))
    requires |xs| > 0
    ensures forall j :: 0 <= j < |xs| ==> Rank(tier(xs[j])) <= Rank(tier(TopBy(xs, key).value))
  {
    var top := TopBy(xs, key).value;
    var i :| IsFirstMax(xs, key, i) && xs[i] == top;
    forall j | 0 <= j < |xs| ensures Rank(tier(xs[j])) <= Rank(tier(top)) {
      TierMonotone(key(xs[j]), key(top));
    }
  }
}
