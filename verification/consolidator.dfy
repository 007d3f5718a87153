/** The team-market consolidator (`procesar_odds` in
    scripts/analizador_odds.py): validates an odds document, routes every
    moneyline (`h2h`), spread (`spreads`) and total (`totals`) quote into one
    of eight buckets, and reduces each bucket to one representative value. */
module Consolidator {
  import opened Wrappers
  import opened Values
  import Seqs

  // ---------------------------------------------------------------------
  // Input: the canonical raw-odds document

  /** One quoted outcome. `point` is None when the key is absent (reading it
      then raises KeyError); a JSON `null` point is `Some(Null)`. */
  datatype RawOutcome = RawOutcome(name: string, price: Value, point: Option<Value>)

  /** A bookmaker's market: `key` is `h2h`, `spreads`, `totals` or anything else. */
  datatype RawMarket = RawMarket(key: string, outcomes: seq<RawOutcome>)

  datatype RawBookmaker = RawBookmaker(key: string, title: Option<string>, markets: seq<RawMarket>)

  /** A JSON object carrying odds. `homeTeam` is None when the key is
      absent; `bookmakers` is None when the key is absent. */
  datatype OddsDoc = OddsDoc(
    id: Option<string>,
    commenceTime: Option<string>,
    homeTeam: Option<string>,
    awayTeam: Option<string>,
    bookmakers: Option<seq<RawBookmaker>>)

  /** The top-level value handed to the consolidator: a JSON object, a JSON
      list, or anything else. */
  datatype OddsInput = DocInput(doc: OddsDoc) | ListInput(items: seq<OddsInput>) | OtherInput

  /** `ValueError` for an empty list, `ValueError` for a value that is not
      an object with `bookmakers`, `KeyError` for a missing `home_team` or
      `point`. */
  datatype FormatError = EmptyList | NotOddsDocument | MissingKey

  // ---------------------------------------------------------------------
  // The eight buckets

  datatype Leaf =
    | MoneylineHome | MoneylineAway
    | SpreadHome | SpreadAway | SpreadPoints
    | TotalOver | TotalUnder | TotalPoints

  /** The lists collected for each leaf of the consolidated market. */
  datatype Buckets = Buckets(
    mlHome: seq<Value>, mlAway: seq<Value>,
    spHome: seq<Value>, spAway: seq<Value>, spPoints: seq<Value>,
    totOver: seq<Value>, totUnder: seq<Value>, totPoints: seq<Value>)
  {
    function Get(l: Leaf): seq<Value> {
      match l
      case MoneylineHome => mlHome
      case MoneylineAway => mlAway
      case SpreadHome => spHome
      case SpreadAway => spAway
      case SpreadPoints => spPoints
      case TotalOver => totOver
      case TotalUnder => totUnder
      case TotalPoints => totPoints
    }

    /** Leaf-wise concatenation. */
    function Append(other: Buckets): (r: Buckets)
      ensures forall l :: r.Get(l) == Get(l) + other.Get(l)
    {
      Buckets(
        mlHome + other.mlHome, mlAway + other.mlAway,
        spHome + other.spHome, spAway + other.spAway, spPoints + other.spPoints,
        totOver + other.totOver, totUnder + other.totUnder, totPoints + other.totPoints)
    }
  }

  const NoQuotes := Buckets([], [], [], [], [], [], [], [])

  lemma AppendAssociative(a: Buckets, b: Buckets, c: Buckets)
    ensures a.Append(b).Append(c) == a.Append(b.Append(c))
  {
    assert a.Append(b).Append(c).mlHome == a.Append(b.Append(c)).mlHome;
  }

  lemma AppendNoQuotes(a: Buckets)
    ensures a.Append(NoQuotes) == a && NoQuotes.Append(a) == a
  {
  }

  // ---------------------------------------------------------------------
  // The routing loop, as the source runs it

  /** Routing of one outcome of a market with key `key`. Moneyline and
      spread outcomes go `home` when their name equals `home_team` exactly
      and `away` otherwise (a draw included); a total outcome goes `over`
      when named exactly "Over" and `under` otherwise. Points are collected
      from home-spread and Over outcomes only. Other market keys contribute
      nothing. */
  function RouteOutcome(b: Buckets, key: string, home: Option<string>, o: RawOutcome): Result<Buckets, FormatError> {
    if key == "h2h" then
      if home.None? then Failure(MissingKey)
      else if o.name == home.value then Success(b.(mlHome := b.mlHome + [o.price]))
      else Success(b.(mlAway := b.mlAway + [o.price]))
    else if key == "spreads" then
      if home.None? then Failure(MissingKey)
      else if o.name == home.value then
        if o.point.None? then Failure(MissingKey)
        else Success(b.(spHome := b.spHome + [o.price], spPoints := b.spPoints + [o.point.value]))
      else Success(b.(spAway := b.spAway + [o.price]))
    else if key == "totals" then
      if o.name == "Over" then
        if o.point.None? then Failure(MissingKey)
        else Success(b.(totOver := b.totOver + [o.price], totPoints := b.totPoints + [o.point.value]))
      else Success(b.(totUnder := b.totUnder + [o.price]))
    else Success(b)
  }

  // ---------------------------------------------------------------------
  // What each outcome contributes, independently of the loop

  /** Reading this outcome raises KeyError: `home_team` is absent from the
      document, or a home-spread / Over outcome has no `point`. */
  predicate OutcomeRaises(key: string, home: Option<string>, o: RawOutcome) {
    || ((key == "h2h" || key == "spreads") && home.None?)
    || (key == "spreads" && home.Some? && o.name == home.value && o.point.None?)
    || (key == "totals" && o.name == "Over" && o.point.None?)
  }

  function PointOf(o: RawOutcome): seq<Value> {
    if o.point.Some? then [o.point.value] else []
  }

  /** The quotes one outcome adds to the buckets. */
  function OutcomeQuotes(key: string, home: Option<string>, o: RawOutcome): Buckets {
    if key == "h2h" && home.Some? then
      if o.name == home.value then NoQuotes.(mlHome := [o.price]) else NoQuotes.(mlAway := [o.price])
    else if key == "spreads" && home.Some? then
      if o.name == home.value then NoQuotes.(spHome := [o.price], spPoints := PointOf(o))
      else NoQuotes.(spAway := [o.price])
    else if key == "totals" then
      if o.name == "Over" then NoQuotes.(totOver := [o.price], totPoints := PointOf(o))
      else NoQuotes.(totUnder := [o.price])
    else NoQuotes
  }

  predicate OutcomesRaise(key: string, home: Option<string>, os: seq<RawOutcome>)
    decreases |os|
  {
    |os| > 0 && (OutcomeRaises(key, home, os[0]) || OutcomesRaise(key, home, os[1..]))
  }

  function OutcomesQuotes(key: string, home: Option<string>, os: seq<RawOutcome>): Buckets
    decreases |os|
  {
    if |os| == 0 then NoQuotes else OutcomeQuotes(key, home, os[0]).Append(OutcomesQuotes(key, home, os[1..]))
  }

  predicate MarketsRaise(home: Option<string>, ms: seq<RawMarket>)
    decreases |ms|
  {
    |ms| > 0 && (OutcomesRaise(ms[0].key, home, ms[0].outcomes) || MarketsRaise(home, ms[1..]))
  }

  function MarketsQuotes(home: Option<string>, ms: seq<RawMarket>): Buckets
    decreases |ms|
  {
    if |ms| == 0 then NoQuotes
    else OutcomesQuotes(ms[0].key, home, ms[0].outcomes).Append(MarketsQuotes(home, ms[1..]))
  }

  /** Some outcome of some bookmaker makes the source raise KeyError. */
  predicate BookmakersRaise(home: Option<string>, bms: seq<RawBookmaker>)
    decreases |bms|
  {
    |bms| > 0 && (MarketsRaise(home, bms[0].markets) || BookmakersRaise(home, bms[1..]))
  }

  /** Everything the bookmakers quote, bucket by bucket, in document order. */
  function BookmakersQuotes(home: Option<string>, bms: seq<RawBookmaker>): Buckets
    decreases |bms|
  {
    if |bms| == 0 then NoQuotes
    else MarketsQuotes(home, bms[0].markets).Append(BookmakersQuotes(home, bms[1..]))
  }

  // ---------------------------------------------------------------------
  // The loops, with their meaning

  function RouteOutcomes(b: Buckets, key: string, home: Option<string>, os: seq<RawOutcome>): (r: Result<Buckets, FormatError>)
    ensures r.Failure? <==> OutcomesRaise(key, home, os)
    ensures r.Failure? ==> r.error == MissingKey
    ensures r.Success? ==> r.value == b.Append(OutcomesQuotes(key, home, os))
    decreases |os|
  {
    if |os| == 0 then
      AppendNoQuotes(b);
      Success(b)
    else
      match RouteOutcome(b, key, home, os[0])
      case Failure(e) => Failure(e)
      case Success(b') =>
        assert b' == b.Append(OutcomeQuotes(key, home, os[0]));
        AppendAssociative(b, OutcomeQuotes(key, home, os[0]), OutcomesQuotes(key, home, os[1..]));
        RouteOutcomes(b', key, home, os[1..])
  }

  function RouteMarkets(b: Buckets, home: Option<string>, ms: seq<RawMarket>): (r: Result<Buckets, FormatError>)
    ensures r.Failure? <==> MarketsRaise(home, ms)
    ensures r.Failure? ==> r.error == MissingKey
    ensures r.Success? ==> r.value == b.Append(MarketsQuotes(home, ms))
    decreases |ms|
  {
    if |ms| == 0 then
      AppendNoQuotes(b);
      Success(b)
    else
      match RouteOutcomes(b, ms[0].key, home, ms[0].outcomes)
      case Failure(e) => Failure(e)
      case Success(b') =>
        AppendAssociative(b, OutcomesQuotes(ms[0].key, home, ms[0].outcomes), MarketsQuotes(home, ms[1..]));
        RouteMarkets(b', home, ms[1..])
  }

  /** The nested `for bookmaker / for market / for outcome` loop: it raises
      exactly when some outcome raises, and otherwise appends, bucket by
      bucket, everything the bookmakers quote in document order. */
  function RouteBookmakers(b: Buckets, home: Option<string>, bms: seq<RawBookmaker>): (r: Result<Buckets, FormatError>)
    ensures r.Failure? <==> BookmakersRaise(home, bms)
    ensures r.Failure? ==> r.error == MissingKey
    ensures r.Success? ==> r.value == b.Append(BookmakersQuotes(home, bms))
    decreases |bms|
  {
    if |bms| == 0 then
      AppendNoQuotes(b);
      Success(b)
    else
      match RouteMarkets(b, home, bms[0].markets)
      case Failure(e) => Failure(e)
      case Success(b') =>
        AppendAssociative(b, MarketsQuotes(home, bms[0].markets), BookmakersQuotes(home, bms[1..]));
        RouteBookmakers(b', home, bms[1..])
  }

  // ---------------------------------------------------------------------
  // Reduction to the consolidated market

  datatype MoneylineOdds = MoneylineOdds(home: Option<real>, away: Option<real>)
  datatype SpreadOdds = SpreadOdds(home: Option<real>, away: Option<real>, points: Value)
  datatype TotalOdds = TotalOdds(over: Option<real>, under: Option<real>, points: Value)

  /** The consolidated market: always all three sub-markets with all their
      leaves. A price leaf is None (`null`); a points leaf is a JSON value,
      `Null` when nothing was collected. */
  datatype ConsolidatedOdds = ConsolidatedOdds(moneyline: MoneylineOdds, spread: SpreadOdds, total: TotalOdds)

  /** A price leaf: the mean of a non-empty list, None when the list is
      empty or `mean` raises. */
  function PriceLeaf(vs: seq<Value>): (r: Option<real>)
    ensures r == Mean(vs)
  {
    if |vs| > 0 then Mean(vs) else None
  }

  /** A points leaf: the mean of a non-empty list; when `mean` raises, the
      first collected point; `null` when the list is empty. */
  function PointsLeaf(vs: seq<Value>): (r: Value)
    ensures |vs| == 0 ==> r == Null
    ensures Mean(vs).Some? ==> r == Num(Mean(vs).value)
    ensures |vs| > 0 && Mean(vs).None? ==> r == vs[0]
  {
    if |vs| > 0 then
      match Mean(vs)
      case Some(m) => Num(m)
      case None => vs[0]
    else Null
  }

  /** The consolidated market `c` summarises the buckets `q`: every price
      leaf is the arithmetic mean of its bucket (None when the bucket is
      empty or holds a non-number), and every points leaf is the mean of its
      bucket, falling back to the first collected point when the mean fails,
      `null` when the bucket is empty. */
  ghost predicate Summarises(c: ConsolidatedOdds, q: Buckets) {
    && c.moneyline.home == Mean(q.mlHome)
    && c.moneyline.away == Mean(q.mlAway)
    && c.spread.home == Mean(q.spHome)
    && c.spread.away == Mean(q.spAway)
    && c.total.over == Mean(q.totOver)
    && c.total.under == Mean(q.totUnder)
    && (|q.spPoints| == 0 ==> c.spread.points == Null)
    && (Mean(q.spPoints).Some? ==> c.spread.points == Num(Mean(q.spPoints).value))
    && (|q.spPoints| > 0 && Mean(q.spPoints).None? ==> c.spread.points == q.spPoints[0])
    && (|q.totPoints| == 0 ==> c.total.points == Null)
    && (Mean(q.totPoints).Some? ==> c.total.points == Num(Mean(q.totPoints).value))
    && (|q.totPoints| > 0 && Mean(q.totPoints).None? ==> c.total.points == q.totPoints[0])
  }

  function Reduce(q: Buckets): (c: ConsolidatedOdds)
    ensures Summarises(c, q)
  {
    ConsolidatedOdds(
      MoneylineOdds(PriceLeaf(q.mlHome), PriceLeaf(q.mlAway)),
      SpreadOdds(PriceLeaf(q.spHome), PriceLeaf(q.spAway), PointsLeaf(q.spPoints)),
      TotalOdds(PriceLeaf(q.totOver), PriceLeaf(q.totUnder), PointsLeaf(q.totPoints)))
  }

  // ---------------------------------------------------------------------
  // procesar_odds

  /** The document `procesar_odds` reads: the first element of a non-empty
      list, or the value itself; None when that is not an object with a
      `bookmakers` key. */
  function Selected(input: OddsInput): Option<OddsDoc> {
    var v := if input.ListInput? && |input.items| > 0 then input.items[0] else input;
    if v.DocInput? && v.doc.bookmakers.Some? then Some(v.doc) else None
  }

  function ProcessOdds(input: OddsInput): (r: Result<ConsolidatedOdds, FormatError>)
    ensures r == Failure(EmptyList) <==> input == ListInput([])
    ensures r == Failure(NotOddsDocument) <==> input != ListInput([]) && Selected(input).None?
    ensures Selected(input).Some? ==>
      var d := Selected(input).value;
      && (r.Failure? <==> BookmakersRaise(d.homeTeam, d.bookmakers.value))
      && (r.Failure? ==> r.error == MissingKey)
      && (r.Success? ==> Summarises(r.value, BookmakersQuotes(d.homeTeam, d.bookmakers.value)))
  {
    var doc :=
      if input.ListInput? then
        if |input.items| == 0 then Failure(EmptyList) else Success(input.items[0])
      else Success(input);
    match doc
    case Failure(e) => Failure(e)
    case Success(v) =>
      if !v.DocInput? || v.doc.bookmakers.None? then Failure(NotOddsDocument)
      else
        match RouteBookmakers(NoQuotes, v.doc.homeTeam, v.doc.bookmakers.value)
        case Failure(e) => Failure(e)
        case Success(q) =>
          AppendNoQuotes(BookmakersQuotes(v.doc.homeTeam, v.doc.bookmakers.value));
          Success(Reduce(q))
  }

  // ---------------------------------------------------------------------
  // Order independence

  lemma {:induction false} BookmakersAppend(home: Option<string>, a: seq<RawBookmaker>, b: seq<RawBookmaker>)
    ensures BookmakersQuotes(home, a + b) == BookmakersQuotes(home, a).Append(BookmakersQuotes(home, b))
    ensures BookmakersRaise(home, a + b) <==> BookmakersRaise(home, a) || BookmakersRaise(home, b)
    decreases |a|
  {
    if |a| == 0 {
      assert a + b == b;
      AppendNoQuotes(BookmakersQuotes(home, b));
    } else {
      assert (a + b)[1..] == a[1..] + b;
      assert (a + b)[0] == a[0];
      BookmakersAppend(home, a[1..], b);
      AppendAssociative(MarketsQuotes(home, a[0].markets), BookmakersQuotes(home, a[1..]), BookmakersQuotes(home, b));
    }
  }

  /** Permuting the bookmakers permutes the contents of every bucket and
      does not change whether the loop raises. */
  lemma {:induction false} BookmakersPermutation(home: Option<string>, xs: seq<RawBookmaker>, ys: seq<RawBookmaker>)
    requires multiset(xs) == multiset(ys)
    ensures forall l :: multiset(BookmakersQuotes(home, xs).Get(l)) == multiset(BookmakersQuotes(home, ys).Get(l))
    ensures BookmakersRaise(home, xs) <==> BookmakersRaise(home, ys)
    decreases |xs|
  {
    if |xs| == 0 {
      assert |ys| == |multiset(ys)| == 0;
      assert ys == [];
    } else {
      var j := Seqs.PermutationTail(xs, ys);
      var rest := ys[..j] + ys[j+1..];
      BookmakersPermutation(home, xs[1..], rest);
      assert xs == [xs[0]] + xs[1..];
      BookmakersAppend(home, [xs[0]], xs[1..]);
      assert ys == ys[..j] + ([xs[0]] + ys[j+1..]);
      BookmakersAppend(home, ys[..j], [xs[0]] + ys[j+1..]);
      BookmakersAppend(home, [xs[0]], ys[j+1..]);
      BookmakersAppend(home, ys[..j], ys[j+1..]);
      var one := BookmakersQuotes(home, [xs[0]]);
      var pre := BookmakersQuotes(home, ys[..j]);
      var post := BookmakersQuotes(home, ys[j+1..]);
      forall l ensures multiset(BookmakersQuotes(home, xs).Get(l)) == multiset(BookmakersQuotes(home, ys).Get(l)) {
        calc {
          multiset(BookmakersQuotes(home, ys).Get(l));
          multiset(pre.Get(l) + (one.Get(l) + post.Get(l)));
          multiset(one.Get(l)) + multiset(pre.Get(l) + post.Get(l));
          multiset(one.Get(l)) + multiset(BookmakersQuotes(home, rest).Get(l));
          multiset(one.Get(l)) + multiset(BookmakersQuotes(home, xs[1..]).Get(l));
          multiset(BookmakersQuotes(home, xs).Get(l));
        }
      }
    }
  }

  /** Consolidation does not depend on the order of the bookmakers: the
      outcome (success or KeyError) is the same, every price leaf is the
      same, and each points leaf is the same whenever its collected points
      are all numbers. (When a point is not a number, `mean` fails and the
      leaf falls back to the FIRST collected point, which does depend on the
      order: see PointsFallbackFollowsOrder.) */
  lemma BookmakerOrderIrrelevant(d: OddsDoc, e: OddsDoc)
    requires d.bookmakers.Some? && e.bookmakers.Some? && d.homeTeam == e.homeTeam
    requires multiset(d.bookmakers.value) == multiset(e.bookmakers.value)
    ensures
      var r, s := ProcessOdds(DocInput(d)), ProcessOdds(DocInput(e));
      var q := BookmakersQuotes(d.homeTeam, d.bookmakers.value);
      && (r.Success? <==> s.Success?)
      && (r.Success? ==>
        && r.value.moneyline == s.value.moneyline
        && r.value.spread.home == s.value.spread.home
        && r.value.spread.away == s.value.spread.away
        && r.value.total.over == s.value.total.over
        && r.value.total.under == s.value.total.under
        && (AllNumeric(q.spPoints) ==> r.value.spread.points == s.value.spread.points)
        && (AllNumeric(q.totPoints) ==> r.value.total.points == s.value.total.points))
  {
    var home := d.homeTeam;
    var q := BookmakersQuotes(home, d.bookmakers.value);
    var q' := BookmakersQuotes(home, e.bookmakers.value);
    BookmakersPermutation(home, d.bookmakers.value, e.bookmakers.value);
    assert Selected(DocInput(d)) == Some(d) && Selected(DocInput(e)) == Some(e);
    var r, s := ProcessOdds(DocInput(d)), ProcessOdds(DocInput(e));
    if r.Success? {
      SameSummary(r.value, s.value, q, q');
    }
  }

  /** Two summaries of bucket contents that are permutations of each other. */
  lemma SameSummary(c: ConsolidatedOdds, c': ConsolidatedOdds, q: Buckets, q': Buckets)
    requires Summarises(c, q) && Summarises(c', q')
    requires forall l :: multiset(q.Get(l)) == multiset(q'.Get(l))
    ensures c.moneyline == c'.moneyline
    ensures c.spread.home == c'.spread.home && c.spread.away == c'.spread.away
    ensures c.total.over == c'.total.over && c.total.under == c'.total.under
    ensures AllNumeric(q.spPoints) ==> c.spread.points == c'.spread.points
    ensures AllNumeric(q.totPoints) ==> c.total.points == c'.total.points
  {
    forall l ensures Mean(q.Get(l)) == Mean(q'.Get(l)) && |q.Get(l)| == |q'.Get(l)| {
      MeanPermutation(q.Get(l), q'.Get(l));
      assert |q.Get(l)| == |multiset(q.Get(l))| == |multiset(q'.Get(l))| == |q'.Get(l)|;
    }
    assert Mean(q.Get(MoneylineHome)) == Mean(q'.Get(MoneylineHome));
    assert Mean(q.Get(MoneylineAway)) == Mean(q'.Get(MoneylineAway));
    assert Mean(q.Get(SpreadHome)) == Mean(q'.Get(SpreadHome));
    assert Mean(q.Get(SpreadAway)) == Mean(q'.Get(SpreadAway));
    assert Mean(q.Get(SpreadPoints)) == Mean(q'.Get(SpreadPoints));
    assert Mean(q.Get(TotalOver)) == Mean(q'.Get(TotalOver));
    assert Mean(q.Get(TotalUnder)) == Mean(q'.Get(TotalUnder));
    assert Mean(q.Get(TotalPoints)) == Mean(q'.Get(TotalPoints));
    assert |q.Get(SpreadPoints)| == |q'.Get(SpreadPoints)|;
    assert |q.Get(TotalPoints)| == |q'.Get(TotalPoints)|;
  }

  /** Only the first element of a non-empty list is read. */
  lemma FirstElementOnly(items: seq<OddsInput>, others: seq<OddsInput>)
    requires |items| > 0 && |others| > 0 && items[0] == others[0]
    ensures ProcessOdds(ListInput(items)) == ProcessOdds(ListInput(others))
    ensures items[0].DocInput? ==> ProcessOdds(ListInput(items)) == ProcessOdds(items[0])
  {
  }

  lemma SingleOutcome(key: string, home: Option<string>, o: RawOutcome)
    ensures OutcomesQuotes(key, home, [o]) == OutcomeQuotes(key, home, o)
  {
    assert [o][1..] == [];
    AppendNoQuotes(OutcomeQuotes(key, home, o));
  }

  lemma SingleMarket(home: Option<string>, m: RawMarket)
    ensures MarketsQuotes(home, [m]) == OutcomesQuotes(m.key, home, m.outcomes)
  {
    assert [m][1..] == [];
    AppendNoQuotes(OutcomesQuotes(m.key, home, m.outcomes));
  }

  lemma SingleBookmaker(home: Option<string>, bm: RawBookmaker)
    ensures BookmakersQuotes(home, [bm]) == MarketsQuotes(home, bm.markets)
  {
    assert [bm][1..] == [];
    AppendNoQuotes(MarketsQuotes(home, bm.markets));
  }

  /** The outcome and the points leaves of a document whose loop does not raise. */
  lemma ConsolidatedLines(d: OddsDoc)
    requires d.bookmakers.Some? && !BookmakersRaise(d.homeTeam, d.bookmakers.value)
    ensures
      var r, q := ProcessOdds(DocInput(d)), BookmakersQuotes(d.homeTeam, d.bookmakers.value);
      r.Success? && r.value.total.points == PointsLeaf(q.totPoints) && r.value.spread.points == PointsLeaf(q.spPoints)
  {
    assert Selected(DocInput(d)) == Some(d);
  }

  /** The moneyline of a document whose loop does not raise: the means of
      its home and away quotes. */
  lemma ConsolidatedMoneyline(d: OddsDoc)
    requires d.bookmakers.Some? && !BookmakersRaise(d.homeTeam, d.bookmakers.value)
    ensures
      var r, q := ProcessOdds(DocInput(d)), BookmakersQuotes(d.homeTeam, d.bookmakers.value);
      r.Success? && r.value.moneyline == MoneylineOdds(Mean(q.mlHome), Mean(q.mlAway))
  {
    assert Selected(DocInput(d)) == Some(d);
  }

  // ---------------------------------------------------------------------
  // Worked examples: small fixed documents and what they consolidate to.
  // ---------------------------------------------------------------------

  /** A bookmaker quoting only an Over price, with the given line. */
  function OverOnly(book: string, line: Value): RawBookmaker {
    RawBookmaker(book, None, [RawMarket("totals", [RawOutcome("Over", Num(1.9), Some(line))])])
  }

  lemma OverOnlyQuotes(book: string, line: Value)
    ensures BookmakersQuotes(Some("H"), [OverOnly(book, line)]).totPoints == [line]
    ensures !BookmakersRaise(Some("H"), [OverOnly(book, line)])
  {
    var bm := OverOnly(book, line);
    assert [bm][1..] == [] && bm.markets[1..] == [] && bm.markets[0].outcomes[1..] == [];
    assert !OutcomesRaise("totals", Some("H"), bm.markets[0].outcomes);
    assert !MarketsRaise(Some("H"), bm.markets);
    SingleBookmaker(Some("H"), bm);
    SingleMarket(Some("H"), bm.markets[0]);
    SingleOutcome("totals", Some("H"), bm.markets[0].outcomes[0]);
  }

  function TwoBookDoc(first: RawBookmaker, second: RawBookmaker): OddsDoc {
    OddsDoc(None, None, Some("H"), Some("A"), Some([first, second]))
  }

  /** Two bookmakers each quoting only an Over price: their lines are
      collected in bookmaker order, and nothing raises. */
  lemma TwoOverQuotes(u: Value, v: Value)
    ensures BookmakersQuotes(Some("H"), [OverOnly("a", u), OverOnly("b", v)]).totPoints == [u, v]
    ensures !BookmakersRaise(Some("H"), [OverOnly("a", u), OverOnly("b", v)])
  {
    var a, b := OverOnly("a", u), OverOnly("b", v);
    OverOnlyQuotes("a", u);
    OverOnlyQuotes("b", v);
    BookmakersAppend(Some("H"), [a], [b]);
    assert [a] + [b] == [a, b];
  }

  /** The consolidated total line of those two bookmakers is the points
      leaf of their two lines, in bookmaker order. */
  lemma TwoOverLines(u: Value, v: Value)
    ensures
      var r := ProcessOdds(DocInput(TwoBookDoc(OverOnly("a", u), OverOnly("b", v))));
      r.Success? && r.value.total.points == PointsLeaf([u, v])
  {
    TwoOverQuotes(u, v);
    ConsolidatedLines(TwoBookDoc(OverOnly("a", u), OverOnly("b", v)));
  }

  /** Two lines, one of them not a number: the points leaf falls back to
      the first. */
  lemma FirstLineFallback(u: Value, v: Value)
    requires !u.Num? || !v.Num?
    ensures PointsLeaf([u, v]) == u
  {
    assert !AllNumeric([u, v]) by {
      if !u.Num? {
        assert !([u, v][0].Num?);
      } else {
        assert !([u, v][1].Num?);
      }
    }
  }

  /** A total quoted by two bookmakers, one with a non-numeric line `x`:
      the consolidated total line is whichever line was collected first, so
      swapping the two bookmakers' lines changes it. */
  lemma PointsFallbackFollowsOrder(x: Value, y: real)
    requires !x.Num?
    ensures
      var r := ProcessOdds(DocInput(TwoBookDoc(OverOnly("a", x), OverOnly("b", Num(y)))));
      var s := ProcessOdds(DocInput(TwoBookDoc(OverOnly("a", Num(y)), OverOnly("b", x))));
      r.Success? && s.Success? && r.value.total.points == x && s.value.total.points == Num(y)
  {
    TwoOverLines(x, Num(y));
    TwoOverLines(Num(y), x);
    FirstLineFallback(x, Num(y));
    FirstLineFallback(Num(y), x);
  }

  /** A three-way moneyline: the draw is consolidated into the away price. */
  lemma DrawCountsAsAway()
    ensures
      var m := RawMarket("h2h", [RawOutcome("H", Num(2.0), None), RawOutcome("A", Num(3.0), None), RawOutcome("Draw", Num(4.0), None)]);
      var r := ProcessOdds(DocInput(OddsDoc(None, None, Some("H"), Some("A"), Some([RawBookmaker("x", None, [m])]))));
      r.Success? && r.value.moneyline == MoneylineOdds(Some(2.0), Some(3.5))
  {
    var m := RawMarket("h2h", [RawOutcome("H", Num(2.0), None), RawOutcome("A", Num(3.0), None), RawOutcome("Draw", Num(4.0), None)]);
    var d := OddsDoc(None, None, Some("H"), Some("A"), Some([RawBookmaker("x", None, [m])]));
    assert Selected(DocInput(d)) == Some(d);
    var q := BookmakersQuotes(Some("H"), d.bookmakers.value);
    SingleBookmaker(Some("H"), RawBookmaker("x", None, [m]));
    SingleMarket(Some("H"), m);
    var os := m.outcomes;
    assert os[1..][1..][1..] == [];
    assert os[1..][1..] == [os[2]];
    SingleOutcome("h2h", Some("H"), os[2]);
    assert q == OutcomeQuotes("h2h", Some("H"), os[0]).Append(OutcomeQuotes("h2h", Some("H"), os[1]).Append(OutcomeQuotes("h2h", Some("H"), os[2])));
    assert q.mlHome == [Num(2.0)];
    assert q.mlAway == [Num(3.0), Num(4.0)];
    assert Total(q.mlAway) == 7.0;
  }
}
