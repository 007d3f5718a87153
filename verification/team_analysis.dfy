/** The team-market recommendation engine (`generar_recomendaciones` and
    the top-recommendation choice of `generar_json_integrado` in
    scripts/analizador_odds.py): joins win predictions to the consolidated
    moneyline, prices them, tiers them, and picks the best. */
module TeamAnalysis {
  import opened Wrappers
  import opened Values
  import opened Calculator
  import opened Ranking
  import opened Consolidator

  /** One entry of the prediction list: an object, read with `.get` and its
      defaults (`probability` and `confidence` default to 0, `game_id` to
      ''), or any non-object value. `team` and `predictionType` are None
      when absent. */
  datatype TeamPrediction =
    | PredictionRecord(gameId: string, predictionType: Option<string>, team: Option<string>, probability: Value, confidence: Value)
    | NotARecord

  datatype TeamRecommendation = TeamRecommendation(
    gameId: string,
    market: string,
    selection: string,
    modelProb: Value,
    impliedProb: real,
    odds: real,
    value: real,
    confidence: Value,
    tier: Tier)

  /** The consolidated moneyline price of the predicted side: `home` exactly
      when the predicted team equals the document's home team (both may be
      absent), `away` otherwise. */
  function SideOdds(c: ConsolidatedOdds, team: Option<string>, home: Option<string>): (o: Option<real>)
    ensures team == home ==> o == c.moneyline.home
    ensures team != home ==> o == c.moneyline.away
  {
    var side := if team == home then "home" else "away";
    if side == "home" then c.moneyline.home else c.moneyline.away
  }

  /** The recommendation one prediction yields, or None when it is skipped:
      not an object, not an `is_win` prediction, no truthy consolidated price
      for its side, or a probability whose subtraction raises (the `except`
      branch skips just this prediction). */
  function Recommend(p: TeamPrediction, c: ConsolidatedOdds, home: Option<string>): (r: Option<TeamRecommendation>)
    ensures r.Some? <==>
      && p.PredictionRecord?
      && p.predictionType == Some("is_win")
      && TruthyNumber(SideOdds(c, p.team, home))
      && !(p.probability.Other? && p.probability.truthy)
    ensures r.Some? ==>
      var o := SideOdds(c, p.team, home).value;
      var rec := r.value;
      && rec.market == "moneyline"
      && rec.gameId == p.gameId
      && rec.selection == p.team.GetOr("")
      && rec.modelProb == p.probability
      && rec.confidence == p.confidence
      && rec.odds == o
      && rec.impliedProb * o == 1.0
      && rec.value == (if p.probability.Num? && p.probability.x != 0.0 then p.probability.x * o - 1.0 else 0.0)
      && rec.tier == TierOf(rec.value)
  {
    if !p.PredictionRecord? || p.predictionType != Some("is_win") then None
    else
      var odds := SideOdds(c, p.team, home);
      if !TruthyNumber(odds) then None
      else
        match ExpectedValue(p.probability, odds)
        case None => None
        case Some(v) =>
          Some(TeamRecommendation(
            p.gameId, "moneyline", p.team.GetOr(""), p.probability,
            ImpliedProbability(odds).value, odds.value, v, p.confidence, TierOf(v)))
  }

  /** `generar_recomendaciones`: one recommendation per prediction that is
      not skipped, in input order. */
  function Recommendations(preds: seq<TeamPrediction>, c: ConsolidatedOdds, home: Option<string>): (r: seq<TeamRecommendation>)
    ensures |r| <= |preds|
    decreases |preds|
  {
    if |preds| == 0 then []
    else
      var rest := Recommendations(preds[1..], c, home);
      match Recommend(preds[0], c, home)
      case Some(rec) => [rec] + rest
      case None => rest
  }

  /** Every recommendation of a batch is the one its own prediction yields. */
  lemma {:induction false} RecommendationsFrom(preds: seq<TeamPrediction>, c: ConsolidatedOdds, home: Option<string>)
    ensures forall k :: 0 <= k < |Recommendations(preds, c, home)| ==>
      exists i :: 0 <= i < |preds| && Recommend(preds[i], c, home) == Some(Recommendations(preds, c, home)[k])
    decreases |preds|
  {
    if |preds| > 0 {
      var r, rest := Recommendations(preds, c, home), Recommendations(preds[1..], c, home);
      RecommendationsFrom(preds[1..], c, home);
      assert forall k :: 0 <= k < |rest| ==> exists i :: 0 <= i < |preds| && Recommend(preds[i], c, home) == Some(rest[k]) by {
        forall k | 0 <= k < |rest| ensures exists i :: 0 <= i < |preds| && Recommend(preds[i], c, home) == Some(rest[k]) {
          var i :| 0 <= i < |preds[1..]| && Recommend(preds[1..][i], c, home) == Some(rest[k]);
          assert preds[1..][i] == preds[i + 1];
        }
      }
      match Recommend(preds[0], c, home)
      case Some(rec) =>
        assert r == [rec] + rest;
        forall k | 0 <= k < |r| ensures exists i :: 0 <= i < |preds| && Recommend(preds[i], c, home) == Some(r[k]) {
          if k == 0 {
            assert Recommend(preds[0], c, home) == Some(r[0]);
          } else {
            assert r[k] == rest[k - 1];
          }
        }
      case None =>
        assert r == rest;
        forall k | 0 <= k < |r| ensures exists i :: 0 <= i < |preds| && Recommend(preds[i], c, home) == Some(r[k]) {
          assert r[k] == rest[k];
        }
    } else {
      assert |Recommendations(preds, c, home)| == 0;
    }
  }

  /** Every prediction that yields a recommendation has it emitted: nothing
      the per-prediction step accepts is dropped from the batch. */
  lemma {:induction false} RecommendationsComplete(preds: seq<TeamPrediction>, c: ConsolidatedOdds, home: Option<string>)
    ensures forall i :: 0 <= i < |preds| && Recommend(preds[i], c, home).Some? ==>
      Recommend(preds[i], c, home).value in Recommendations(preds, c, home)
    decreases |preds|
  {
    if |preds| > 0 {
      RecommendationsComplete(preds[1..], c, home);
      forall i | 1 <= i < |preds| && Recommend(preds[i], c, home).Some?
        ensures Recommend(preds[i], c, home).value in Recommendations(preds, c, home)
      {
        assert preds[i] == preds[1..][i - 1];
      }
    }
  }

  /** A batch of one prediction holds exactly its recommendation, if any.
      With `RecommendationsAppend` this fixes every batch: the accepted
      predictions' recommendations, in input order. */
  lemma RecommendationsSingle(p: TeamPrediction, c: ConsolidatedOdds, home: Option<string>)
    ensures Recommendations([p], c, home) ==
      (if Recommend(p, c, home).Some? then [Recommend(p, c, home).value] else [])
  {
    assert [p][1..] == [];
    assert Recommendations([p][1..], c, home) == [];
  }

  /** The batch is the concatenation of the per-prediction results: each
      prediction contributes zero or one recommendation, in place. */
  lemma {:induction false} RecommendationsAppend(a: seq<TeamPrediction>, b: seq<TeamPrediction>, c: ConsolidatedOdds, home: Option<string>)
    ensures Recommendations(a + b, c, home) == Recommendations(a, c, home) + Recommendations(b, c, home)
    decreases |a|
  {
    if |a| == 0 {
      assert a + b == b;
    } else {
      assert (a + b)[1..] == a[1..] + b;
      assert (a + b)[0] == a[0];
      RecommendationsAppend(a[1..], b, c, home);
    }
  }

  /** Skip-and-continue: a prediction that yields nothing (malformed, not a
      win prediction, no price, or raising) leaves the rest of the batch
      exactly as it would be without it. */
  lemma SkipAndContinue(a: seq<TeamPrediction>, bad: TeamPrediction, b: seq<TeamPrediction>, c: ConsolidatedOdds, home: Option<string>)
    requires Recommend(bad, c, home).None?
    ensures Recommendations(a + [bad] + b, c, home) == Recommendations(a + b, c, home)
  {
    var left, right := Recommendations(a, c, home), Recommendations(b, c, home);
    assert Recommendations([bad], c, home) == [] by {
      assert [bad][1..] == [];
    }
    assert Recommendations(a + [bad], c, home) == left by {
      RecommendationsAppend(a, [bad], c, home);
    }
    assert Recommendations(a + [bad] + b, c, home) == left + right by {
      RecommendationsAppend(a + [bad], b, c, home);
    }
    RecommendationsAppend(a, b, c, home);
  }

  /** Position `i` holds the largest value, and every earlier value is smaller. */
  ghost predicate IsTop(recs: seq<TeamRecommendation>, i: int) {
    && 0 <= i < |recs|
    && (forall j :: 0 <= j < |recs| ==> recs[j].value <= recs[i].value)
    && (forall j :: 0 <= j < i ==> recs[j].value < recs[i].value)
  }

  /** The `top_recommendation` of the integrated report: None for no
      recommendations, otherwise the first one with the largest value. */
  function TopRecommendation(recs: seq<TeamRecommendation>): (r: Option<TeamRecommendation>)
    ensures r.None? <==> |recs| == 0
    ensures r.Some? ==> exists i :: IsTop(recs, i) && recs[i] == r.value
  {
    TopBy(recs, (rec: TeamRecommendation) => rec.value)
  }

  /** The top recommendation of a batch carries the strongest tier of the batch. */
  lemma TopIsStrongest(preds: seq<TeamPrediction>, c: ConsolidatedOdds, home: Option<string>)
    requires |Recommendations(preds, c, home)| > 0
    ensures var recs := Recommendations(preds, c, home);
      forall j :: 0 <= j < |recs| ==> Rank(recs[j].tier) <= Rank(TopRecommendation(recs).value.tier)
  {
    var recs := Recommendations(preds, c, home);
    RecommendationsFrom(preds, c, home);
    forall j | 0 <= j < |recs| ensures recs[j].tier == TierOf(recs[j].value) {
      var i :| 0 <= i < |preds| && Recommend(preds[i], c, home) == Some(recs[j]);
    }
    var top := TopRecommendation(recs).value;
    forall j | 0 <= j < |recs| ensures Rank(recs[j].tier) <= Rank(top.tier) {
      TierMonotone(recs[j].value, top.value);
    }
  }

  // ---------------------------------------------------------------------
  // Worked example: a two-bookmaker document followed end to end, from
  // consolidation to a strong-bet recommendation.
  // ---------------------------------------------------------------------

  /** The first bookmaker of the scenario quotes the home side at 2.0 and
      the away side at 1.8. */
  function ScenarioBookOne(): RawBookmaker {
    RawBookmaker("b1", None, [RawMarket("h2h", [RawOutcome("H", Num(2.0), None), RawOutcome("A", Num(1.8), None)])])
  }

  /** The second bookmaker quotes only the home side, at 2.2. */
  function ScenarioBookTwo(): RawBookmaker {
    RawBookmaker("b2", None, [RawMarket("h2h", [RawOutcome("H", Num(2.2), None)])])
  }

  /** The scenario's document: home team "H", the two bookmakers in order.
      The model gives the home side 0.55. */
  function ScenarioDoc(): OddsDoc {
    OddsDoc(None, None, Some("H"), Some("A"), Some([ScenarioBookOne(), ScenarioBookTwo()]))
  }

  lemma ScenarioBookOneQuotes()
    ensures BookmakersQuotes(Some("H"), [ScenarioBookOne()]).mlHome == [Num(2.0)]
    ensures BookmakersQuotes(Some("H"), [ScenarioBookOne()]).mlAway == [Num(1.8)]
    ensures !BookmakersRaise(Some("H"), [ScenarioBookOne()])
  {
    var bm, home := ScenarioBookOne(), Some("H");
    var m := bm.markets[0];
    assert m.outcomes[1..] == [m.outcomes[1]] && m.outcomes[1..][1..] == [];
    SingleOutcome("h2h", home, m.outcomes[1]);
    SingleMarket(home, m);
    SingleBookmaker(home, bm);
    assert bm.markets[1..] == [];
  }

  lemma ScenarioBookTwoQuotes()
    ensures BookmakersQuotes(Some("H"), [ScenarioBookTwo()]).mlHome == [Num(2.2)]
    ensures BookmakersQuotes(Some("H"), [ScenarioBookTwo()]).mlAway == []
    ensures !BookmakersRaise(Some("H"), [ScenarioBookTwo()])
  {
    var bm, home := ScenarioBookTwo(), Some("H");
    var m := bm.markets[0];
    assert m.outcomes[1..] == [];
    SingleOutcome("h2h", home, m.outcomes[0]);
    SingleMarket(home, m);
    SingleBookmaker(home, bm);
    assert bm.markets[1..] == [];
  }

  /** The scenario's quotes: both home prices in bookmaker order, the one
      away price, and no KeyError. */
  lemma ScenarioQuotes()
    ensures var bms := ScenarioDoc().bookmakers.value;
      && BookmakersQuotes(Some("H"), bms).mlHome == [Num(2.0), Num(2.2)]
      && BookmakersQuotes(Some("H"), bms).mlAway == [Num(1.8)]
      && !BookmakersRaise(Some("H"), bms)
  {
    ScenarioBookOneQuotes();
    ScenarioBookTwoQuotes();
    BookmakersAppend(Some("H"), [ScenarioBookOne()], [ScenarioBookTwo()]);
    assert [ScenarioBookOne()] + [ScenarioBookTwo()] == ScenarioDoc().bookmakers.value;
  }

  /** The scenario's quotes consolidate to a home price of 2.1 (the mean of
      2.0 and 2.2) and an away price of 1.8. */
  lemma ScenarioConsolidates()
    ensures
      var r := ProcessOdds(DocInput(ScenarioDoc()));
      r.Success? && r.value.moneyline == MoneylineOdds(Some(2.1), Some(1.8))
  {
    ScenarioQuotes();
    ScenarioMeans();
    ConsolidatedMoneyline(ScenarioDoc());
  }

  lemma ScenarioMeans()
    ensures Mean([Num(2.0), Num(2.2)]) == Some(2.1)
    ensures Mean([Num(1.8)]) == Some(1.8)
  {
    assert Total([Num(2.0), Num(2.2)]) == 4.2;
  }

  /** A home-win probability of 0.55 against a consolidated home price of
      2.1 is worth 0.55 * 2.1 - 1 = 0.155, above the 0.15 threshold: a
      STRONG BET. */
  lemma StrongBetAtHomePrice(c: ConsolidatedOdds)
    requires c.moneyline.home == Some(2.1)
    ensures
      var pred := PredictionRecord("g", Some("is_win"), Some("H"), Num(0.55), Num(0.7));
      Recommendations([pred], c, Some("H")) ==
        [TeamRecommendation("g", "moneyline", "H", Num(0.55), 1.0 / 2.1, 2.1, 0.155, Num(0.7), StrongBet)]
  {
    var pred := PredictionRecord("g", Some("is_win"), Some("H"), Num(0.55), Num(0.7));
    assert [pred][1..] == [];
    assert SideOdds(c, pred.team, Some("H")) == Some(2.1);
    var rec := Recommend(pred, c, Some("H")).value;
    assert rec.value == 0.155;
  }

  /** End to end: the scenario's document and prediction give a single
      STRONG BET recommendation. */
  lemma ScenarioStrongBet()
    ensures
      var c := ProcessOdds(DocInput(ScenarioDoc())).value;
      var pred := PredictionRecord("g", Some("is_win"), Some("H"), Num(0.55), Num(0.7));
      Recommendations([pred], c, Some("H")) ==
        [TeamRecommendation("g", "moneyline", "H", Num(0.55), 1.0 / 2.1, 2.1, 0.155, Num(0.7), StrongBet)]
  {
    ScenarioConsolidates();
    StrongBetAtHomePrice(ProcessOdds(DocInput(ScenarioDoc())).value);
  }
}
