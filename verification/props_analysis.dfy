/** The player-props recommendation engine (scripts/analizador_odds_player_props.py):
    joins over/under predictions to the best quoted price for the same
    player, market, side and line, prices and tiers them, and picks the best. */
module PropsAnalysis {
  import opened Wrappers
  import opened Values
  import opened Calculator
  import opened Ranking
  import opened PropsFilter
  import Seqs

  /** One prediction; `confidence` defaults to 0 when absent, every other
      field is a required key. */
  datatype PropPrediction = PropPrediction(
    playerId: string,
    playerName: string,
    team: string,
    market: string,
    predictionType: string,
    line: real,
    probability: Value,
    confidence: Value)

  datatype PropRecommendation = PropRecommendation(
    playerId: string,
    playerName: string,
    team: string,
    market: string,
    kind: string,
    line: real,
    modelProb: Value,
    impliedProb: real,
    odds: real,
    value: real,
    confidence: Value,
    tier: Tier)

  /** Pricing a prediction whose probability is a non-empty non-number
      raises; nothing in the analyser catches it. */
  datatype AnalysisError = ProbabilityNotNumeric

  /** An outcome quotes side `kind` at line `line`. */
  predicate Matches(o: PropOutcome, kind: string, line: real) {
    o.kind == Some(kind) && o.total == line
  }

  /** The quoted prices of one book's matching outcomes, in order. */
  function OutcomeQuotes(os: seq<PropOutcome>, kind: string, line: real): (q: seq<real>)
    ensures forall x :: x in q <==> exists i :: 0 <= i < |os| && Matches(os[i], kind, line) && os[i].oddsDecimal == x
    decreases |os|
  {
    if |os| == 0 then []
    else
      var rest := OutcomeQuotes(os[1..], kind, line);
      assert forall i :: 1 <= i < |os| ==> os[i] == os[1..][i - 1];
      assert forall x :: x in rest ==> exists i :: 0 <= i < |os| && Matches(os[i], kind, line) && os[i].oddsDecimal == x by {
        forall x | x in rest ensures exists i :: 0 <= i < |os| && Matches(os[i], kind, line) && os[i].oddsDecimal == x {
          var i :| 0 <= i < |os[1..]| && Matches(os[1..][i], kind, line) && os[1..][i].oddsDecimal == x;
          assert os[i + 1] == os[1..][i];
        }
      }
      if Matches(os[0], kind, line) then [os[0].oddsDecimal] + rest else rest
  }

  /** Some outcome of book `b` at position `i` quotes side `kind` at `line`. */
  predicate QuotedAt(books: seq<PropBook>, b: int, i: int, kind: string, line: real) {
    0 <= b < |books| && 0 <= i < |books[b].outcomes| && Matches(books[b].outcomes[i], kind, line)
  }

  /** `mejores`: the matching prices of every book, in book order. */
  function Quotes(books: seq<PropBook>, kind: string, line: real): (q: seq<real>)
    ensures forall x :: x in q <==> exists b, i :: QuotedAt(books, b, i, kind, line) && books[b].outcomes[i].oddsDecimal == x
    decreases |books|
  {
    if |books| == 0 then []
    else
      var head := OutcomeQuotes(books[0].outcomes, kind, line);
      var rest := Quotes(books[1..], kind, line);
      assert forall x :: x in rest ==> exists b, i :: QuotedAt(books, b, i, kind, line) && books[b].outcomes[i].oddsDecimal == x by {
        forall x | x in rest ensures exists b, i :: QuotedAt(books, b, i, kind, line) && books[b].outcomes[i].oddsDecimal == x {
          var b, i :| QuotedAt(books[1..], b, i, kind, line) && books[1..][b].outcomes[i].oddsDecimal == x;
          assert books[b + 1] == books[1..][b];
          assert QuotedAt(books, b + 1, i, kind, line);
        }
      }
      assert forall x :: x in head ==> QuotedAt(books, 0, 0, kind, line) || exists b, i :: QuotedAt(books, b, i, kind, line) && books[b].outcomes[i].oddsDecimal == x by {
        forall x | x in head ensures exists b, i :: QuotedAt(books, b, i, kind, line) && books[b].outcomes[i].oddsDecimal == x {
          var i :| 0 <= i < |books[0].outcomes| && Matches(books[0].outcomes[i], kind, line) && books[0].outcomes[i].oddsDecimal == x;
          assert QuotedAt(books, 0, i, kind, line);
        }
      }
      assert forall b, i :: QuotedAt(books, b, i, kind, line) ==> books[b].outcomes[i].oddsDecimal in head + rest by {
        forall b, i | QuotedAt(books, b, i, kind, line) ensures books[b].outcomes[i].oddsDecimal in head + rest {
          if b > 0 {
            assert books[1..][b - 1] == books[b];
            assert QuotedAt(books[1..], b - 1, i, kind, line);
          }
        }
      }
      head + rest
  }

  /** `max(xs) if xs else None`. */
  function MaxOf(xs: seq<real>): (r: Option<real>)
    ensures r.None? <==> |xs| == 0
    ensures r.Some? ==> r.value in xs && forall x :: x in xs ==> x <= r.value
  {
    if |xs| == 0 then None
    else
      var m := Seqs.FirstMaxIndex(xs);
      Some(xs[m])
  }

  /** `obtener_mejor_odds`: the highest price any book quotes for side
      `kind` at line `line`, or None when no book quotes it. */
  function BestOdds(books: seq<PropBook>, kind: string, line: real): (r: Option<real>)
    ensures r.None? <==> forall b, i :: !QuotedAt(books, b, i, kind, line)
    ensures r.Some? ==> exists b, i :: QuotedAt(books, b, i, kind, line) && books[b].outcomes[i].oddsDecimal == r.value
    ensures forall b, i :: QuotedAt(books, b, i, kind, line) ==> r.Some? && books[b].outcomes[i].oddsDecimal <= r.value
  {
    var q := Quotes(books, kind, line);
    assert forall b, i :: QuotedAt(books, b, i, kind, line) ==> books[b].outcomes[i].oddsDecimal in q;
    MaxOf(q)
  }

  /** The larger of two optional prices, None counting as no price. */
  function Larger(x: Option<real>, y: Option<real>): Option<real> {
    if x.None? then y
    else if y.None? then x
    else if x.value >= y.value then x else y
  }

  /** Quoting distributes over a split of the book list. */
  lemma {:induction false} QuotesAppend(a: seq<PropBook>, c: seq<PropBook>, kind: string, line: real)
    ensures Quotes(a + c, kind, line) == Quotes(a, kind, line) + Quotes(c, kind, line)
    decreases |a|
  {
    if |a| == 0 {
      assert a + c == c;
    } else {
      assert (a + c)[1..] == a[1..] + c;
      assert (a + c)[0] == a[0];
      QuotesAppend(a[1..], c, kind, line);
    }
  }

  /** The best price over two groups of books is the larger of the two
      groups' best prices. */
  lemma BestOddsAppend(a: seq<PropBook>, c: seq<PropBook>, kind: string, line: real)
    ensures BestOdds(a + c, kind, line) == Larger(BestOdds(a, kind, line), BestOdds(c, kind, line))
  {
    QuotesAppend(a, c, kind, line);
    var qa, qc := Quotes(a, kind, line), Quotes(c, kind, line);
    assert BestOdds(a + c, kind, line) == MaxOf(qa + qc);
    MaxOfAppend(qa, qc);
  }

  /** The maximum of a concatenation is the larger of the two maxima. */
  lemma MaxOfAppend(xs: seq<real>, ys: seq<real>)
    ensures MaxOf(xs + ys) == Larger(MaxOf(xs), MaxOf(ys))
  {
    var m, mx, my := MaxOf(xs + ys), MaxOf(xs), MaxOf(ys);
    assert forall x :: x in xs + ys <==> x in xs || x in ys;
    if mx.Some? && my.Some? {
      assert m.value <= mx.value || m.value <= my.value;
    }
  }

  /** Player `i` is the first whose id is `id`. */
  predicate FirstPlayer(props: seq<PlayerProps>, id: string, i: int) {
    0 <= i < |props| && props[i].playerId == id && forall k :: 0 <= k < i ==> props[k].playerId != id
  }

  /** Market `j` is the first whose name is `name`. */
  predicate FirstMarket(markets: seq<PropMarket>, name: string, j: int) {
    0 <= j < |markets| && markets[j].marketName == name && forall k :: 0 <= k < j ==> markets[k].marketName != name
  }

  /** The best price for a prediction: looked up in the first market of the
      right name of the first player with the right id; None when either
      is missing or nothing is quoted there. */
  function OddsFor(pred: PropPrediction, props: seq<PlayerProps>): (o: Option<real>)
    ensures forall i, j :: FirstPlayer(props, pred.playerId, i) && FirstMarket(props[i].markets, pred.market, j) ==>
      o == BestOdds(props[i].markets[j].books, pred.predictionType, pred.line)
    ensures o.Some? ==> exists i, j :: FirstPlayer(props, pred.playerId, i) && FirstMarket(props[i].markets, pred.market, j)
  {
    match Seqs.FirstWhere(props, (p: PlayerProps) => p.playerId == pred.playerId)
    case None => None
    case Some(i) =>
      var markets := props[i].markets;
      assert forall i' :: FirstPlayer(props, pred.playerId, i') ==> i' == i;
      match Seqs.FirstWhere(markets, (m: PropMarket) => m.marketName == pred.market)
      case None => None
      case Some(j) =>
        assert FirstPlayer(props, pred.playerId, i);
        assert FirstMarket(markets, pred.market, j);
        assert forall j' :: FirstMarket(markets, pred.market, j') ==> j' == j;
        BestOdds(markets[j].books, pred.predictionType, pred.line)
  }

  /** Pricing one prediction at a non-zero price `o`: the recommendation
      record, or the error raised by a non-empty non-number probability. */
  function PriceProp(pred: PropPrediction, o: real): (r: Result<PropRecommendation, AnalysisError>)
    requires o != 0.0
    ensures r.Failure? <==> pred.probability.Other? && pred.probability.truthy
    ensures r.Success? ==>
      var rec := r.value;
      && rec.playerId == pred.playerId
      && rec.playerName == pred.playerName
      && rec.team == pred.team
      && rec.market == pred.market
      && rec.kind == pred.predictionType
      && rec.line == pred.line
      && rec.modelProb == pred.probability
      && rec.confidence == pred.confidence
      && rec.odds == o
      && rec.impliedProb * o == 1.0
      && rec.value == (if pred.probability.Num? && pred.probability.x != 0.0 then pred.probability.x * o - 1.0 else 0.0)
      && rec.tier == TierOf(rec.value)
  {
    match ExpectedValue(pred.probability, Some(o))
    case None => Failure(ProbabilityNotNumeric)
    case Some(v) =>
      Success(PropRecommendation(
        pred.playerId, pred.playerName, pred.team, pred.market, pred.predictionType, pred.line,
        pred.probability, ImpliedProbability(Some(o)).value, o, v, pred.confidence, TierOf(v)))
  }

  /** One prediction: skipped (None) unless its best price is truthy;
      otherwise priced as `PriceProp` says. */
  function RecommendProp(pred: PropPrediction, props: seq<PlayerProps>): (r: Result<Option<PropRecommendation>, AnalysisError>)
    ensures !TruthyNumber(OddsFor(pred, props)) ==> r == Success(None)
    ensures TruthyNumber(OddsFor(pred, props)) ==>
      match PriceProp(pred, OddsFor(pred, props).value)
      case Failure(e) => r == Failure(e)
      case Success(rec) => r == Success(Some(rec))
  {
    var odds := OddsFor(pred, props);
    if !TruthyNumber(odds) then Success(None)
    else
      match PriceProp(pred, odds.value)
      case Failure(e) => Failure(e)
      case Success(rec) => Success(Some(rec))
  }

  /** `analizar_player_props`: the recommendations of the predictions that
      are not skipped, in prediction order; the first raising prediction
      aborts the whole analysis. */
  function AnalyzePlayerProps(preds: seq<PropPrediction>, props: seq<PlayerProps>): (r: Result<seq<PropRecommendation>, AnalysisError>)
    ensures r.Failure? <==> exists i :: 0 <= i < |preds| && RecommendProp(preds[i], props).Failure?
    ensures r.Success? ==> |r.value| <= |preds|
    ensures r.Success? ==> forall k :: 0 <= k < |r.value| ==>
      exists i :: 0 <= i < |preds| && RecommendProp(preds[i], props) == Success(Some(r.value[k]))
  {
    var f := (p: PropPrediction) => RecommendProp(p, props);
    Seqs.CollectKeptFailure(preds, f);
    var r := Seqs.CollectKept(preds, f);
    if r.Success? then
      Seqs.CollectKeptMembers(preds, f);
      r
    else r
  }

  /** Predictions are handled one at a time, in order: analysing two halves
      and concatenating gives the analysis of the whole. */
  lemma AnalyzeAppend(a: seq<PropPrediction>, b: seq<PropPrediction>, props: seq<PlayerProps>)
    ensures AnalyzePlayerProps(a + b, props).Success? <==>
      AnalyzePlayerProps(a, props).Success? && AnalyzePlayerProps(b, props).Success?
    ensures AnalyzePlayerProps(a + b, props).Success? ==>
      AnalyzePlayerProps(a + b, props).value == AnalyzePlayerProps(a, props).value + AnalyzePlayerProps(b, props).value
  {
    Seqs.CollectKeptAppend(a, b, (p: PropPrediction) => RecommendProp(p, props));
  }

  /** An analysis of one prediction: its error, or its recommendation if it
      is not skipped. With `AnalyzeAppend` this fixes every analysis. */
  lemma AnalyzeSingle(pred: PropPrediction, props: seq<PlayerProps>)
    ensures RecommendProp(pred, props).Failure? ==>
      AnalyzePlayerProps([pred], props) == Failure(RecommendProp(pred, props).error)
    ensures RecommendProp(pred, props).Success? ==>
      AnalyzePlayerProps([pred], props) ==
        Success(if RecommendProp(pred, props).value.Some? then [RecommendProp(pred, props).value.value] else [])
  {
    Seqs.CollectKeptSingle(pred, (p: PropPrediction) => RecommendProp(p, props));
  }

  /** A successful analysis emits every prediction's recommendation. */
  lemma AnalyzeComplete(preds: seq<PropPrediction>, props: seq<PlayerProps>)
    requires AnalyzePlayerProps(preds, props).Success?
    ensures forall i :: 0 <= i < |preds| && RecommendProp(preds[i], props).Success? && RecommendProp(preds[i], props).value.Some? ==>
      RecommendProp(preds[i], props).value.value in AnalyzePlayerProps(preds, props).value
  {
    var f := (p: PropPrediction) => RecommendProp(p, props);
    Seqs.CollectKeptComplete(preds, f);
    assert forall i :: 0 <= i < |preds| ==> f(preds[i]) == RecommendProp(preds[i], props);
  }

  /** `max(recs, key=value) if recs else None`. */
  function TopPropRecommendation(recs: seq<PropRecommendation>): (r: Option<PropRecommendation>)
    ensures r.None? <==> |recs| == 0
    ensures r.Some? ==> exists i :: IsFirstMax(recs, (rec: PropRecommendation) => rec.value, i) && recs[i] == r.value
  {
    TopBy(recs, (rec: PropRecommendation) => rec.value)
  }

  /** Every recommendation of a successful analysis is labelled with the
      tier its expected value falls in. */
  lemma PropsTiered(preds: seq<PropPrediction>, props: seq<PlayerProps>)
    requires AnalyzePlayerProps(preds, props).Success?
    ensures var recs := AnalyzePlayerProps(preds, props).value;
      forall j :: 0 <= j < |recs| ==> recs[j].tier == TierOf(recs[j].value)
  {
    var recs := AnalyzePlayerProps(preds, props).value;
    forall j | 0 <= j < |recs| ensures recs[j].tier == TierOf(recs[j].value) {
      var i :| 0 <= i < |preds| && RecommendProp(preds[i], props) == Success(Some(recs[j]));
      assert PriceProp(preds[i], OddsFor(preds[i], props).value) == Success(recs[j]);
    }
  }

  /** The top recommendation of a successful analysis carries the strongest
      tier of the batch. */
  lemma TopPropIsStrongest(preds: seq<PropPrediction>, props: seq<PlayerProps>)
    requires AnalyzePlayerProps(preds, props).Success?
    requires |AnalyzePlayerProps(preds, props).value| > 0
    ensures var recs := AnalyzePlayerProps(preds, props).value;
      forall j :: 0 <= j < |recs| ==> Rank(recs[j].tier) <= Rank(TopPropRecommendation(recs).value.tier)
  {
    var recs := AnalyzePlayerProps(preds, props).value;
    PropsTiered(preds, props);
    var top := TopPropRecommendation(recs).value;
    forall j | 0 <= j < |recs| ensures Rank(recs[j].tier) <= Rank(top.tier) {
      var i :| IsFirstMax(recs, (rec: PropRecommendation) => rec.value, i) && recs[i] == top;
      TierMonotone(recs[j].value, top.value);
    }
  }

  /** Three books quote the over at line 25.5 at 1.8, 2.1 and 1.95; an under
      quote and an over quote at another line are ignored. */
  lemma BestOverQuote()
    ensures BestOdds([
      PropBook(None, None, [PropOutcome(Some("over"), 1.8, 25.5), PropOutcome(Some("under"), 2.5, 25.5)]),
      PropBook(None, None, [PropOutcome(Some("over"), 2.1, 25.5)]),
      PropBook(None, None, [PropOutcome(Some("over"), 3.0, 26.5), PropOutcome(Some("over"), 1.95, 25.5)])
    ], "over", 25.5) == Some(2.1)
  {
    var b1 := PropBook(None, None, [PropOutcome(Some("over"), 1.8, 25.5), PropOutcome(Some("under"), 2.5, 25.5)]);
    var b2 := PropBook(None, None, [PropOutcome(Some("over"), 2.1, 25.5)]);
    var b3 := PropBook(None, None, [PropOutcome(Some("over"), 3.0, 26.5), PropOutcome(Some("over"), 1.95, 25.5)]);
    assert OutcomeQuotes(b1.outcomes[1..], "over", 25.5) == [];
    assert OutcomeQuotes(b1.outcomes, "over", 25.5) == [1.8];
    assert OutcomeQuotes(b2.outcomes, "over", 25.5) == [2.1];
    assert OutcomeQuotes(b3.outcomes[1..], "over", 25.5) == [1.95];
    assert OutcomeQuotes(b3.outcomes, "over", 25.5) == [1.95];
    var q := Quotes([b1, b2, b3], "over", 25.5);
    assert [b1, b2, b3][1..] == [b2, b3];
    assert [b2, b3][1..] == [b3];
    assert [b3][1..] == [];
    assert Quotes([b3], "over", 25.5) == [1.95] + Quotes([], "over", 25.5);
    assert Quotes([b2, b3], "over", 25.5) == [2.1] + Quotes([b3], "over", 25.5);
    assert q == [1.8] + Quotes([b2, b3], "over", 25.5);
    assert q == [1.8, 2.1, 1.95];
    assert 2.1 in q;
  }
}
