/** The prematch normaliser (scripts/extraer_odds_prematch.py): turns a
    provider's per-market, per-book prematch feed into the canonical odds
    document the consolidator reads, regrouping quotes by bookmaker. */
module Prematch {
  import opened Wrappers
  import opened Values
  import Text
  import Seqs
  import opened Consolidator

  // ---------------------------------------------------------------------
  // Input: the provider's feed

  /** A competitor's `qualifier` is optional; its `name` is taken as present. */
  datatype Competitor = Competitor(qualifier: Option<string>, name: string)

  /** One outcome: optional `type`, and the three numeric fields the
      normaliser may parse. */
  datatype FeedOutcome = FeedOutcome(kind: Option<string>, oddsDecimal: RawNumber, handicap: RawNumber, total: RawNumber)

  /** A book inside a market; `name` is None when the key is absent. */
  datatype FeedBook = FeedBook(name: Option<string>, outcomes: seq<FeedOutcome>)

  datatype FeedMarket = FeedMarket(name: Option<string>, books: seq<FeedBook>)

  /** The feed: the event's id, start time and competitors, and its markets. */
  datatype PrematchFeed = PrematchFeed(
    eventId: Option<string>,
    startTime: Option<string>,
    competitors: seq<Competitor>,
    markets: seq<FeedMarket>)

  // ---------------------------------------------------------------------
  // Team names

  /** Competitor `i` is the last one with qualifier `q`. */
  predicate IsLastWith(cs: seq<Competitor>, q: string, i: int) {
    0 <= i < |cs| && cs[i].qualifier == Some(q) && forall j :: i < j < |cs| ==> cs[j].qualifier != Some(q)
  }

  /** The name the competitor loop leaves for qualifier `q`: the last
      competitor so qualified wins, and the name stays empty when none is. */
  function TeamNamed(cs: seq<Competitor>, q: string): (name: string)
    ensures (forall i :: 0 <= i < |cs| ==> cs[i].qualifier != Some(q)) ==> name == ""
    ensures forall i :: IsLastWith(cs, q, i) ==> name == cs[i].name
    decreases |cs|
  {
    if |cs| == 0 then ""
    else
      var prev := cs[..|cs| - 1];
      assert forall i :: 0 <= i < |prev| ==> prev[i] == cs[i];
      if cs[|cs| - 1].qualifier == Some(q) then cs[|cs| - 1].name
      else
        assert forall i :: IsLastWith(cs, q, i) ==> IsLastWith(prev, q, i);
        TeamNamed(prev, q)
  }

  // ---------------------------------------------------------------------
  // Markets and outcomes

  /** The three canonical markets. */
  datatype MarketKind = Moneyline | Spread | Total

  function KeyName(k: MarketKind): string {
    match k
    case Moneyline => "h2h"
    case Spread => "spreads"
    case Total => "totals"
  }

  /** `market_key_map`: the five provider market names that are kept, and
      the canonical market each maps to; every other name is skipped. */
  function MarketKey(name: Option<string>): (k: Option<MarketKind>)
    ensures k == Some(Moneyline) <==> name == Some("winner (incl. overtime)") || name == Some("1x2")
    ensures k == Some(Spread) <==> name == Some("spread (incl. overtime)") || name == Some("handicap (incl. overtime)")
    ensures k == Some(Total) <==> name == Some("total (incl. overtime)")
  {
    if name == Some("winner (incl. overtime)") || name == Some("1x2") then Some(Moneyline)
    else if name == Some("spread (incl. overtime)") || name == Some("handicap (incl. overtime)") then Some(Spread)
    else if name == Some("total (incl. overtime)") then Some(Total)
    else None
  }

  /** The outcome types each market keeps; draws and anything else are
      dropped. */
  predicate Recognised(k: MarketKind, kind: Option<string>) {
    match k
    case Moneyline => kind == Some("home") || kind == Some("away")
    case Spread => kind == Some("home_handicap") || kind == Some("away_handicap")
    case Total => kind == Some("over") || kind == Some("under")
  }

  /** The field a spread or total outcome takes its line from. */
  function PointField(k: MarketKind, o: FeedOutcome): RawNumber {
    if k == Spread then o.handicap else o.total
  }

  /** One outcome reshaped to the canonical form, None when its type is not
      kept. The price is parsed first (default 0), for every outcome, so an
      unparseable price raises even on a dropped outcome; a kept spread or
      total outcome also parses its line, which has no default. */
  function Reshape(k: MarketKind, home: string, away: string, o: FeedOutcome): (r: Result<Option<RawOutcome>, NumberError>)
    ensures r.Failure? <==>
      o.oddsDecimal.Unparseable? || (Recognised(k, o.kind) && k != Moneyline && !PointField(k, o).Parsed?)
    ensures r.Success? ==> (r.value.Some? <==> Recognised(k, o.kind))
    ensures r.Success? && r.value.Some? ==>
      var out := r.value.value;
      && out.price == Num(if o.oddsDecimal.Parsed? then o.oddsDecimal.x else 0.0)
      && (k == Moneyline ==> out.point.None?)
      && (k != Moneyline ==> out.point == Some(Num(PointField(k, o).x)))
      && (o.kind == Some("home") || o.kind == Some("home_handicap") ==> out.name == home)
      && (o.kind == Some("away") || o.kind == Some("away_handicap") ==> out.name == away)
      && (o.kind == Some("over") ==> out.name == "Over")
      && (o.kind == Some("under") ==> out.name == "Under")
  {
    match ToFloat(o.oddsDecimal, Some(0.0))
    case Failure(e) => Failure(e)
    case Success(price) =>
      match k
      case Moneyline =>
        if o.kind == Some("home") then Success(Some(RawOutcome(home, Num(price), None)))
        else if o.kind == Some("away") then Success(Some(RawOutcome(away, Num(price), None)))
        else Success(None)
      case Spread =>
        if o.kind == Some("home_handicap") || o.kind == Some("away_handicap") then
          match ToFloat(o.handicap, None)
          case Failure(e) => Failure(e)
          case Success(line) =>
            var name := if o.kind == Some("home_handicap") then home else away;
            Success(Some(RawOutcome(name, Num(price), Some(Num(line)))))
        else Success(None)
      case Total =>
        if o.kind == Some("over") || o.kind == Some("under") then
          match ToFloat(o.total, None)
          case Failure(e) => Failure(e)
          case Success(line) =>
            var name := if o.kind == Some("over") then "Over" else "Under";
            Success(Some(RawOutcome(name, Num(price), Some(Num(line)))))
        else Success(None)
  }

  // ---------------------------------------------------------------------
  // Book keys

  /** `name.lower().replace(" ", "")`: the key books are grouped by. */
  function BookKey(name: string): (key: string)
    ensures forall i :: 0 <= i < |key| ==> key[i] != ' ' && !('A' <= key[i] <= 'Z')
    ensures |key| <= |name|
  {
    var lowered := Text.Lower(name);
    var key := Text.WithoutSpaces(lowered);
    assert forall i :: 0 <= i < |key| ==> key[i] in lowered;
    key
  }

  /** A name that is already a key is its own key: lower-case text without
      spaces comes through unchanged. */
  lemma BookKeyFixed(name: string)
    requires forall i :: 0 <= i < |name| ==> name[i] != ' ' && !('A' <= name[i] <= 'Z')
    ensures BookKey(name) == name
  {
    Text.LowerFixed(name);
    Text.WithoutSpacesFixed(name);
  }

  /** Letter case does not change a book's key. */
  lemma KeyIgnoresCase(name: string)
    ensures BookKey(Text.Lower(name)) == BookKey(name)
  {
    Text.LowerIdempotent(name);
  }

  /** "Draft Kings" is filed under the key "draftkings". */
  lemma DraftKingsKey()
    ensures BookKey("Draft Kings") == "draftkings"
  {
    DraftKingsSpaces();
    DraftKingsCase();
    DraftKingsFixed();
  }

  lemma DraftKingsSpaces()
    ensures BookKey("Draft Kings") == BookKey("DraftKings")
  {
    KeyIgnoresSpaces("Draft", "Kings");
    assert "Draft" + " " + "Kings" == "Draft Kings";
    assert "Draft" + "Kings" == "DraftKings";
  }

  lemma DraftKingsCase()
    ensures BookKey("DraftKings") == BookKey("draftkings")
  {
    KeyIgnoresCase("DraftKings");
    LowerDraftKings();
  }

  lemma DraftKingsFixed()
    ensures BookKey("draftkings") == "draftkings"
  {
    BookKeyFixed("draftkings");
  }

  lemma LowerDraftKings()
    ensures Text.Lower("DraftKings") == "draftkings"
  {
    var s := Text.Lower("DraftKings");
    assert s[0] == 'd' && s[5] == 'k';
    assert s[1..5] == "raft" && s[6..] == "ings";
    assert s == [s[0]] + s[1..5] + [s[5]] + s[6..];
  }

  lemma {:induction false} WithoutSpacesAppend(a: string, b: string)
    ensures Text.WithoutSpaces(a + b) == Text.WithoutSpaces(a) + Text.WithoutSpaces(b)
    decreases |a|
  {
    if |a| > 0 {
      assert (a + b)[1..] == a[1..] + b;
      assert (a + b)[0] == a[0];
      WithoutSpacesAppend(a[1..], b);
    } else {
      assert a + b == b;
    }
  }

  /** Spaces do not change a book's key: "Draft Kings" and "DraftKings"
      are grouped together. */
  lemma KeyIgnoresSpaces(a: string, b: string)
    ensures BookKey(a + " " + b) == BookKey(a + b)
  {
    assert Text.Lower(a + " " + b) == Text.Lower(a) + " " + Text.Lower(b);
    assert Text.Lower(a + b) == Text.Lower(a) + Text.Lower(b);
    WithoutSpacesAppend(Text.Lower(a) + " ", Text.Lower(b));
    WithoutSpacesAppend(Text.Lower(a), " ");
    WithoutSpacesAppend(Text.Lower(a), Text.Lower(b));
    assert Text.WithoutSpaces(" ") == "";
  }

  // ---------------------------------------------------------------------
  // Visits: one per (kept market, book) pair, in feed order

  /** A book seen inside a kept market: its key, its title, and the market
      it contributes (None when none of its outcomes is kept). */
  datatype Visit = Visit(key: string, title: Option<string>, market: Option<RawMarket>)

  /** A spread or total market whose outcomes all carry a numeric line. */
  predicate WellPointed(m: RawMarket) {
    forall i :: 0 <= i < |m.outcomes| ==>
      (m.key == "spreads" || m.key == "totals") ==> m.outcomes[i].point.Some? && m.outcomes[i].point.value.Num?
  }

  predicate VisitOk(v: Visit) {
    v.market.Some? ==> WellPointed(v.market.value) && |v.market.value.outcomes| > 0
  }

  /** The per-outcome step of a market of kind `k`. */
  function Reshaper(k: MarketKind, home: string, away: string): FeedOutcome -> Result<Option<RawOutcome>, NumberError> {
    (o: FeedOutcome) => Reshape(k, home, away, o)
  }

  /** One book inside a market of kind `k`: keyed by its name, titled by it,
      with its outcomes reshaped in order; the market is attached only when
      some outcome is kept. */
  function VisitBook(k: MarketKind, home: string, away: string, b: FeedBook): (r: Result<Option<Visit>, NumberError>)
    ensures r.Success? ==> r.value.Some?
    ensures r.Success? ==> r.value.value.key == BookKey(b.name.GetOr("")) && r.value.value.title == b.name
  {
    match Seqs.CollectKept(b.outcomes, Reshaper(k, home, away))
    case Failure(e) => Failure(e)
    case Success(outcomes) =>
      var market := if |outcomes| > 0 then Some(RawMarket(KeyName(k), outcomes)) else None;
      Success(Some(Visit(BookKey(b.name.GetOr("")), b.name, market)))
  }

  /** A book raises exactly when one of its outcomes does. */
  lemma VisitBookFailure(k: MarketKind, home: string, away: string, b: FeedBook)
    ensures VisitBook(k, home, away, b).Failure? <==>
      exists i :: 0 <= i < |b.outcomes| && Reshape(k, home, away, b.outcomes[i]).Failure?
  {
    var f := Reshaper(k, home, away);
    Seqs.CollectKeptFailure(b.outcomes, f);
    assert forall i :: 0 <= i < |b.outcomes| ==> f(b.outcomes[i]) == Reshape(k, home, away, b.outcomes[i]);
  }

  /** The market a book attaches: present exactly when one of its outcomes
      has a type the market keeps, filed under the canonical key, and
      holding the outcome loop's result. */
  lemma VisitBookMarket(k: MarketKind, home: string, away: string, b: FeedBook)
    requires VisitBook(k, home, away, b).Success?
    ensures var v := VisitBook(k, home, away, b).value.value;
      && (v.market.None? <==> forall i :: 0 <= i < |b.outcomes| ==> !Recognised(k, b.outcomes[i].kind))
      && (v.market.Some? ==> v.market.value.key == KeyName(k))
      && (v.market.Some? ==> v.market.value.outcomes == Seqs.CollectKept(b.outcomes, Reshaper(k, home, away)).value)
  {
    var f := Reshaper(k, home, away);
    Seqs.CollectKeptMembers(b.outcomes, f);
    Seqs.CollectKeptFailure(b.outcomes, f);
    forall i | 0 <= i < |b.outcomes|
      ensures f(b.outcomes[i]) == Success(None) <==> !Recognised(k, b.outcomes[i].kind)
    {
      assert f(b.outcomes[i]) == Reshape(k, home, away, b.outcomes[i]);
    }
  }

  /** The visit of a book is well-formed: an attached market is non-empty
      and, for spreads and totals, every outcome has a numeric line. */
  lemma VisitBookOk(k: MarketKind, home: string, away: string, b: FeedBook)
    requires VisitBook(k, home, away, b).Success?
    ensures VisitOk(VisitBook(k, home, away, b).value.value)
  {
    var f := Reshaper(k, home, away);
    var outcomes := Seqs.CollectKept(b.outcomes, f).value;
    Seqs.CollectKeptMembers(b.outcomes, f);
    if |outcomes| > 0 {
      forall i | 0 <= i < |outcomes|
        ensures (KeyName(k) == "spreads" || KeyName(k) == "totals") ==> outcomes[i].point.Some? && outcomes[i].point.value.Num?
      {
        var j :| 0 <= j < |b.outcomes| && f(b.outcomes[j]) == Success(Some(outcomes[i]));
        assert Reshape(k, home, away, b.outcomes[j]) == Success(Some(outcomes[i]));
      }
      assert WellPointed(RawMarket(KeyName(k), outcomes));
    }
  }

  /** The market a visit attaches holds exactly the book's recognised
      outcomes, reshaped, in feed order: each comes from some recognised
      outcome, and every recognised outcome's reshaping is there. */
  lemma VisitBookOutcomes(k: MarketKind, home: string, away: string, b: FeedBook)
    requires VisitBook(k, home, away, b).Success?
    requires VisitBook(k, home, away, b).value.value.market.Some?
    ensures var os := VisitBook(k, home, away, b).value.value.market.value.outcomes;
      && (forall j :: 0 <= j < |os| ==>
            exists i :: 0 <= i < |b.outcomes| && Recognised(k, b.outcomes[i].kind) &&
              Reshape(k, home, away, b.outcomes[i]) == Success(Some(os[j])))
      && (forall i :: 0 <= i < |b.outcomes| && Recognised(k, b.outcomes[i].kind) ==>
            Reshape(k, home, away, b.outcomes[i]).Success? &&
            Reshape(k, home, away, b.outcomes[i]).value.Some? &&
            Reshape(k, home, away, b.outcomes[i]).value.value in os)
  {
    var f := Reshaper(k, home, away);
    Seqs.CollectKeptMembers(b.outcomes, f);
    Seqs.CollectKeptComplete(b.outcomes, f);
    Seqs.CollectKeptFailure(b.outcomes, f);
    assert forall i :: 0 <= i < |b.outcomes| ==> f(b.outcomes[i]) == Reshape(k, home, away, b.outcomes[i]);
  }

  /** The per-book step of a market of kind `k`. */
  function Visitor(k: MarketKind, home: string, away: string): FeedBook -> Result<Option<Visit>, NumberError> {
    (b: FeedBook) => VisitBook(k, home, away, b)
  }

  /** The visits of one market: none when its name is not kept, otherwise
      one per book in order. */
  function MarketVisits(m: FeedMarket, home: string, away: string): (r: Result<seq<Visit>, NumberError>)
    ensures MarketKey(m.name).None? ==> r == Success([])
  {
    match MarketKey(m.name)
    case None => Success([])
    case Some(k) => Seqs.CollectKept(m.books, Visitor(k, home, away))
  }

  /** A kept market raises exactly when one of its books does. */
  lemma MarketVisitsFailure(m: FeedMarket, home: string, away: string)
    requires MarketKey(m.name).Some?
    ensures MarketVisits(m, home, away).Failure? <==>
      exists j :: 0 <= j < |m.books| && VisitBook(MarketKey(m.name).value, home, away, m.books[j]).Failure?
  {
    var f := Visitor(MarketKey(m.name).value, home, away);
    Seqs.CollectKeptFailure(m.books, f);
    assert forall j :: 0 <= j < |m.books| ==> f(m.books[j]) == VisitBook(MarketKey(m.name).value, home, away, m.books[j]);
  }

  /** A kept market visits each of its books once, in order: visit `j` is
      book `j`'s visit. */
  lemma MarketVisitsBooks(m: FeedMarket, home: string, away: string)
    requires MarketKey(m.name).Some? && MarketVisits(m, home, away).Success?
    ensures |MarketVisits(m, home, away).value| == |m.books|
    ensures forall j :: 0 <= j < |m.books| ==>
      VisitBook(MarketKey(m.name).value, home, away, m.books[j]) == Success(Some(MarketVisits(m, home, away).value[j]))
  {
    var f := Visitor(MarketKey(m.name).value, home, away);
    Seqs.CollectAll(m.books, f);
  }

  /** Every visit of a market is well-formed. */
  lemma MarketVisitsOk(m: FeedMarket, home: string, away: string)
    requires MarketVisits(m, home, away).Success?
    ensures forall j :: 0 <= j < |MarketVisits(m, home, away).value| ==> VisitOk(MarketVisits(m, home, away).value[j])
  {
    if MarketKey(m.name).Some? {
      var k := MarketKey(m.name).value;
      var r := MarketVisits(m, home, away).value;
      MarketVisitsBooks(m, home, away);
      forall j | 0 <= j < |r| ensures VisitOk(r[j]) {
        VisitBookOk(k, home, away, m.books[j]);
      }
    }
  }

  /** The visits of all markets, in feed order; the first market that
      raises aborts the walk. */
  function Visits(ms: seq<FeedMarket>, home: string, away: string): Result<seq<Visit>, NumberError>
    decreases |ms|
  {
    if |ms| == 0 then Success([])
    else
      match MarketVisits(ms[0], home, away)
      case Failure(e) => Failure(e)
      case Success(first) =>
        match Visits(ms[1..], home, away)
        case Failure(e) => Failure(e)
        case Success(rest) => Success(first + rest)
  }

  /** The walk raises exactly when some market raises. */
  lemma {:induction false} VisitsFailure(ms: seq<FeedMarket>, home: string, away: string)
    ensures Visits(ms, home, away).Failure? <==> exists i :: 0 <= i < |ms| && MarketVisits(ms[i], home, away).Failure?
    decreases |ms|
  {
    if |ms| > 0 {
      VisitsFailure(ms[1..], home, away);
      assert forall i :: 1 <= i < |ms| ==> ms[i] == ms[1..][i - 1];
    }
  }

  /** Every visit of a successful walk is well-formed. */
  lemma {:induction false} VisitsOk(ms: seq<FeedMarket>, home: string, away: string)
    requires Visits(ms, home, away).Success?
    ensures forall j :: 0 <= j < |Visits(ms, home, away).value| ==> VisitOk(Visits(ms, home, away).value[j])
    decreases |ms|
  {
    if |ms| > 0 {
      VisitsOk(ms[1..], home, away);
      MarketVisitsOk(ms[0], home, away);
      var first, rest := MarketVisits(ms[0], home, away).value, Visits(ms[1..], home, away).value;
      assert Visits(ms, home, away).value == first + rest;
      AllOkAppend(first, rest);
    }
  }

  lemma AllOkAppend(a: seq<Visit>, b: seq<Visit>)
    requires forall j :: 0 <= j < |a| ==> VisitOk(a[j])
    requires forall j :: 0 <= j < |b| ==> VisitOk(b[j])
    ensures forall j :: 0 <= j < |a + b| ==> VisitOk((a + b)[j])
  {
    forall j | 0 <= j < |a + b| ensures VisitOk((a + b)[j]) {
      if j < |a| {
        assert (a + b)[j] == a[j];
      } else {
        assert (a + b)[j] == b[j - |a|];
      }
    }
  }

  /** Book `j` of market `i` sits in a market whose name is kept. */
  predicate KeptBook(ms: seq<FeedMarket>, i: int, j: int) {
    0 <= i < |ms| && MarketKey(ms[i].name).Some? && 0 <= j < |ms[i].books|
  }

  /** Every book of every kept market is visited. */
  lemma {:induction false} VisitsCoverFeed(ms: seq<FeedMarket>, home: string, away: string)
    requires Visits(ms, home, away).Success?
    ensures forall i, j :: KeptBook(ms, i, j) ==>
      VisitBook(MarketKey(ms[i].name).value, home, away, ms[i].books[j]).Success? &&
      VisitBook(MarketKey(ms[i].name).value, home, away, ms[i].books[j]).value.value in Visits(ms, home, away).value
    decreases |ms|
  {
    if |ms| > 0 {
      VisitsCoverFeed(ms[1..], home, away);
      var first, rest := MarketVisits(ms[0], home, away).value, Visits(ms[1..], home, away).value;
      assert Visits(ms, home, away).value == first + rest;
      if MarketKey(ms[0].name).Some? {
        MarketVisitsBooks(ms[0], home, away);
      }
      forall i, j | KeptBook(ms, i, j) && i > 0
        ensures VisitBook(MarketKey(ms[i].name).value, home, away, ms[i].books[j]).Success? &&
          VisitBook(MarketKey(ms[i].name).value, home, away, ms[i].books[j]).value.value in first + rest
      {
        assert ms[i] == ms[1..][i - 1] && KeptBook(ms[1..], i - 1, j);
      }
    }
  }

  /** Every visit is the visit of some book of a kept market. */
  lemma {:induction false} VisitsFromFeed(ms: seq<FeedMarket>, home: string, away: string)
    requires Visits(ms, home, away).Success?
    ensures forall v :: v in Visits(ms, home, away).value ==>
      exists i, j :: KeptBook(ms, i, j) && VisitBook(MarketKey(ms[i].name).value, home, away, ms[i].books[j]) == Success(Some(v))
    decreases |ms|
  {
    if |ms| > 0 {
      VisitsFromFeed(ms[1..], home, away);
      var first, rest := MarketVisits(ms[0], home, away).value, Visits(ms[1..], home, away).value;
      assert Visits(ms, home, away).value == first + rest;
      if MarketKey(ms[0].name).Some? {
        MarketVisitsBooks(ms[0], home, away);
      }
      forall v | v in first + rest
        ensures exists i, j :: KeptBook(ms, i, j) && VisitBook(MarketKey(ms[i].name).value, home, away, ms[i].books[j]) == Success(Some(v))
      {
        if v in first {
          var j :| 0 <= j < |first| && first[j] == v;
          assert KeptBook(ms, 0, j);
        } else {
          assert v in rest;
          var i, j :| KeptBook(ms[1..], i, j) &&
            VisitBook(MarketKey(ms[1..][i].name).value, home, away, ms[1..][i].books[j]) == Success(Some(v));
          assert ms[1..][i] == ms[i + 1] && KeptBook(ms, i + 1, j);
        }
      }
    }
  }

  /** The visits of a single market are that market's visits. */
  lemma VisitsSingle(m: FeedMarket, home: string, away: string)
    ensures Visits([m], home, away) == MarketVisits(m, home, away)
  {
    assert [m][1..] == [];
    assert Visits([m][1..], home, away) == Success([]);
    if MarketVisits(m, home, away).Success? {
      var first := MarketVisits(m, home, away).value;
      assert first + [] == first;
    }
  }

  /** One step of the walk: the first market's visits, then the rest's. */
  function Prepend(first: Result<seq<Visit>, NumberError>, rest: Result<seq<Visit>, NumberError>): Result<seq<Visit>, NumberError> {
    match first
    case Failure(e) => Failure(e)
    case Success(f) =>
      match rest
      case Failure(e) => Failure(e)
      case Success(r) => Success(f + r)
  }

  lemma VisitsUnfold(ms: seq<FeedMarket>, home: string, away: string)
    requires |ms| > 0
    ensures Visits(ms, home, away) == Prepend(MarketVisits(ms[0], home, away), Visits(ms[1..], home, away))
  {
  }

  /** Markets are visited front to back: the visits of `a + b` are those of
      `a` followed by those of `b`, and they succeed exactly when both do. */
  lemma {:induction false} VisitsAppend(a: seq<FeedMarket>, b: seq<FeedMarket>, home: string, away: string)
    ensures Visits(a + b, home, away).Success? <==> Visits(a, home, away).Success? && Visits(b, home, away).Success?
    ensures Visits(a + b, home, away).Success? ==>
      Visits(a + b, home, away).value == Visits(a, home, away).value + Visits(b, home, away).value
    decreases |a|
  {
    if |a| == 0 {
      assert a + b == b;
    } else {
      assert (a + b)[1..] == a[1..] + b;
      assert (a + b)[0] == a[0];
      VisitsAppend(a[1..], b, home, away);
      VisitsUnfold(a + b, home, away);
      VisitsUnfold(a, home, away);
      PrependAppend(MarketVisits(a[0], home, away), Visits(a[1..], home, away), Visits(b, home, away), Visits(a[1..] + b, home, away));
    }
  }

  /** Prepending one market's visits commutes with appending a later part. */
  lemma PrependAppend(x: Result<seq<Visit>, NumberError>, r: Result<seq<Visit>, NumberError>,
                      t: Result<seq<Visit>, NumberError>, rt: Result<seq<Visit>, NumberError>)
    requires rt.Success? <==> r.Success? && t.Success?
    requires rt.Success? ==> rt.value == r.value + t.value
    ensures Prepend(x, rt).Success? <==> Prepend(x, r).Success? && t.Success?
    ensures Prepend(x, rt).Success? ==> Prepend(x, rt).value == Prepend(x, r).value + t.value
  {
    if x.Success? && rt.Success? {
      assert x.value + (r.value + t.value) == (x.value + r.value) + t.value;
    }
  }

  // ---------------------------------------------------------------------
  // Grouping by book key

  function Added(v: Visit): seq<RawMarket> {
    if v.market.Some? then [v.market.value] else []
  }

  function Keys(bs: seq<RawBookmaker>): set<string> {
    set i | 0 <= i < |bs| :: bs[i].key
  }

  function VisitKeys(vs: seq<Visit>): set<string> {
    set j | 0 <= j < |vs| :: vs[j].key
  }

  predicate DistinctKeys(bs: seq<RawBookmaker>) {
    forall i, j :: 0 <= i < j < |bs| ==> bs[i].key != bs[j].key
  }

  /** Reference definition: every market the visits file under `key`, in
      visit order. */
  function MarketsUnder(vs: seq<Visit>, key: string): seq<RawMarket>
    decreases |vs|
  {
    if |vs| == 0 then []
    else MarketsUnder(vs[..|vs| - 1], key) + (if vs[|vs| - 1].key == key then Added(vs[|vs| - 1]) else [])
  }

  lemma VisitKeysPrefix(vs: seq<Visit>)
    requires |vs| > 0
    ensures VisitKeys(vs) == VisitKeys(vs[..|vs| - 1]) + {vs[|vs| - 1].key}
  {
    var prev := vs[..|vs| - 1];
    assert forall j :: 0 <= j < |prev| ==> prev[j] == vs[j];
    assert vs == prev + [vs[|vs| - 1]];
  }

  lemma {:induction false} MarketsUnderUnseen(vs: seq<Visit>, key: string)
    requires key !in VisitKeys(vs)
    ensures MarketsUnder(vs, key) == []
    decreases |vs|
  {
    if |vs| > 0 {
      var prev := vs[..|vs| - 1];
      assert forall j :: 0 <= j < |prev| ==> prev[j] == vs[j];
      VisitKeysPrefix(vs);
      MarketsUnderUnseen(prev, key);
    }
  }

  /** Position of the bookmaker with key `key`. */
  function IndexOfKey(bs: seq<RawBookmaker>, key: string): (i: nat)
    requires key in Keys(bs)
    ensures i < |bs| && bs[i].key == key
    decreases |bs|
  {
    if bs[0].key == key then 0
    else
      assert key in Keys(bs[1..]) by {
        var i :| 0 <= i < |bs| && bs[i].key == key;
        assert bs[1..][i - 1] == bs[i];
      }
      1 + IndexOfKey(bs[1..], key)
  }

  /** One step of the grouping loop: a book seen before gets the visit's
      market appended to its list; a new book is added at the end. */
  function Register(acc: seq<RawBookmaker>, v: Visit): (r: seq<RawBookmaker>)
    requires DistinctKeys(acc)
    ensures DistinctKeys(r)
    ensures Keys(r) == Keys(acc) + {v.key}
    ensures |r| == |acc| + (if v.key in Keys(acc) then 0 else 1)
    ensures forall i :: 0 <= i < |acc| ==> r[i].key == acc[i].key && r[i].title == acc[i].title
    ensures v.key !in Keys(acc) ==> r[|acc|].key == v.key && r[|acc|].title == v.title
    ensures forall i :: 0 <= i < |r| ==>
      r[i].markets == (if i < |acc| then acc[i].markets else []) + (if r[i].key == v.key then Added(v) else [])
  {
    if v.key in Keys(acc) then
      var i := IndexOfKey(acc, v.key);
      var r := acc[i := acc[i].(markets := acc[i].markets + Added(v))];
      assert Keys(r) == Keys(acc) by {
        assert forall j :: 0 <= j < |r| ==> r[j].key == acc[j].key;
      }
      r
    else
      var r := acc + [RawBookmaker(v.key, v.title, Added(v))];
      assert Keys(r) == Keys(acc) + {v.key} by {
        assert forall j :: 0 <= j < |acc| ==> r[j].key == acc[j].key;
        assert r[|acc|].key == v.key;
      }
      r
  }

  /** `books_dict` turned into a list: one bookmaker per distinct key, the
      keys being exactly those of the visits, each holding every market filed
      under its key in visit order. */
  function GroupBooks(vs: seq<Visit>): (r: seq<RawBookmaker>)
    ensures DistinctKeys(r)
    ensures Keys(r) == VisitKeys(vs)
    ensures forall i :: 0 <= i < |r| ==> r[i].markets == MarketsUnder(vs, r[i].key)
    decreases |vs|
  {
    if |vs| == 0 then []
    else
      var prev := vs[..|vs| - 1];
      var v := vs[|vs| - 1];
      var acc := GroupBooks(prev);
      VisitKeysPrefix(vs);
      var r := Register(acc, v);
      assert forall i :: 0 <= i < |r| ==> r[i].markets == MarketsUnder(vs, r[i].key) by {
        forall i | 0 <= i < |r| ensures r[i].markets == MarketsUnder(vs, r[i].key) {
          if i == |acc| {
            MarketsUnderUnseen(prev, v.key);
          }
        }
      }
      r
  }

  /** Visit `j` is the first with key `key`. */
  function FirstVisit(vs: seq<Visit>, key: string): (j: nat)
    requires key in VisitKeys(vs)
    ensures j < |vs| && vs[j].key == key
    ensures forall j' :: 0 <= j' < j ==> vs[j'].key != key
    decreases |vs|
  {
    if vs[0].key == key then 0
    else
      assert key in VisitKeys(vs[1..]) by {
        var j :| 0 <= j < |vs| && vs[j].key == key;
        assert vs[1..][j - 1] == vs[j];
      }
      1 + FirstVisit(vs[1..], key)
  }

  /** Adding a visit does not move the first visit of a key already seen. */
  lemma FirstVisitStable(vs: seq<Visit>, key: string)
    requires |vs| > 0 && key in VisitKeys(vs[..|vs| - 1])
    ensures key in VisitKeys(vs) && FirstVisit(vs, key) == FirstVisit(vs[..|vs| - 1], key)
  {
    var prev := vs[..|vs| - 1];
    VisitKeysPrefix(vs);
    assert forall j :: 0 <= j < |prev| ==> prev[j] == vs[j];
  }

  /** A key first seen in the last visit has its first visit there. */
  lemma FirstVisitNew(vs: seq<Visit>)
    requires |vs| > 0 && vs[|vs| - 1].key !in VisitKeys(vs[..|vs| - 1])
    ensures vs[|vs| - 1].key in VisitKeys(vs) && FirstVisit(vs, vs[|vs| - 1].key) == |vs| - 1
  {
    var prev := vs[..|vs| - 1];
    VisitKeysPrefix(vs);
    assert forall j :: 0 <= j < |prev| ==> prev[j] == vs[j] && prev[j].key in VisitKeys(prev);
  }

  /** Every bookmaker is titled by the first visit of its key. */
  ghost predicate TitledByFirstVisit(bs: seq<RawBookmaker>, vs: seq<Visit>) {
    forall i :: 0 <= i < |bs| ==> bs[i].key in VisitKeys(vs) && bs[i].title == vs[FirstVisit(vs, bs[i].key)].title
  }

  /** Bookmakers appear in the order of their keys' first visits. */
  ghost predicate OrderedByFirstVisit(bs: seq<RawBookmaker>, vs: seq<Visit>) {
    forall i, i' :: 0 <= i < i' < |bs| ==>
      bs[i].key in VisitKeys(vs) && bs[i'].key in VisitKeys(vs) &&
      FirstVisit(vs, bs[i].key) < FirstVisit(vs, bs[i'].key)
  }

  lemma RegisterKeepsTitles(vs: seq<Visit>, acc: seq<RawBookmaker>)
    requires |vs| > 0 && DistinctKeys(acc) && Keys(acc) == VisitKeys(vs[..|vs| - 1])
    requires TitledByFirstVisit(acc, vs[..|vs| - 1])
    ensures TitledByFirstVisit(Register(acc, vs[|vs| - 1]), vs)
  {
    var prev, v := vs[..|vs| - 1], vs[|vs| - 1];
    var r := Register(acc, v);
    VisitKeysPrefix(vs);
    forall i | 0 <= i < |r| ensures r[i].key in VisitKeys(vs) && r[i].title == vs[FirstVisit(vs, r[i].key)].title {
      if i < |acc| {
        var k := acc[i].key;
        FirstVisitStable(vs, k);
        var f := FirstVisit(prev, k);
        assert prev[f] == vs[f];
      } else {
        FirstVisitNew(vs);
      }
    }
    assert TitledByFirstVisit(r, vs);
  }

  /** Registering the last visit `v` keeps every known bookmaker's first
      visit, and that first visit precedes `v`. */
  lemma RegisterKeepsFirsts(vs: seq<Visit>, prev: seq<Visit>, v: Visit, acc: seq<RawBookmaker>)
    requires |vs| > 0 && prev == vs[..|vs| - 1] && v == vs[|vs| - 1]
    requires DistinctKeys(acc) && Keys(acc) == VisitKeys(prev)
    ensures forall i :: 0 <= i < |acc| ==>
      && acc[i].key in VisitKeys(prev)
      && Register(acc, v)[i].key in VisitKeys(vs)
      && FirstVisit(vs, Register(acc, v)[i].key) == FirstVisit(prev, acc[i].key) < |prev|
  {
    forall i | 0 <= i < |acc|
      ensures acc[i].key in VisitKeys(prev)
      ensures FirstVisit(vs, acc[i].key) == FirstVisit(prev, acc[i].key) < |prev|
    {
      assert acc[i].key in Keys(acc);
      FirstVisitStable(vs, acc[i].key);
    }
  }

  /** Two bookmakers already registered keep their relative order. */
  lemma RegisterKeepsOldPair(vs: seq<Visit>, prev: seq<Visit>, v: Visit, acc: seq<RawBookmaker>, i: nat, i': nat)
    requires |vs| > 0 && prev == vs[..|vs| - 1] && v == vs[|vs| - 1]
    requires DistinctKeys(acc) && Keys(acc) == VisitKeys(prev)
    requires OrderedByFirstVisit(acc, prev)
    requires i < i' < |acc|
    ensures Register(acc, v)[i].key in VisitKeys(vs) && Register(acc, v)[i'].key in VisitKeys(vs)
    ensures FirstVisit(vs, Register(acc, v)[i].key) < FirstVisit(vs, Register(acc, v)[i'].key)
  {
    RegisterKeepsFirsts(vs, prev, v, acc);
    assert FirstVisit(prev, acc[i].key) < FirstVisit(prev, acc[i'].key);
  }

  /** A newly registered bookmaker comes after all earlier ones. */
  lemma RegisterPutsNewLast(vs: seq<Visit>, prev: seq<Visit>, v: Visit, acc: seq<RawBookmaker>)
    requires |vs| > 0 && prev == vs[..|vs| - 1] && v == vs[|vs| - 1]
    requires DistinctKeys(acc) && Keys(acc) == VisitKeys(prev)
    requires v.key !in Keys(acc)
    ensures |Register(acc, v)| == |acc| + 1
    ensures Register(acc, v)[|acc|].key in VisitKeys(vs)
    ensures forall i :: 0 <= i < |acc| ==>
      Register(acc, v)[i].key in VisitKeys(vs) &&
      FirstVisit(vs, Register(acc, v)[i].key) < FirstVisit(vs, Register(acc, v)[|acc|].key)
  {
    RegisterKeepsFirsts(vs, prev, v, acc);
    FirstVisitNew(vs);
  }

  lemma RegisterKeepsOrder(vs: seq<Visit>, acc: seq<RawBookmaker>)
    requires |vs| > 0 && DistinctKeys(acc) && Keys(acc) == VisitKeys(vs[..|vs| - 1])
    requires OrderedByFirstVisit(acc, vs[..|vs| - 1])
    ensures OrderedByFirstVisit(Register(acc, vs[|vs| - 1]), vs)
  {
    var prev, v := vs[..|vs| - 1], vs[|vs| - 1];
    var r := Register(acc, v);
    forall i, i' | 0 <= i < i' < |r|
      ensures r[i].key in VisitKeys(vs) && r[i'].key in VisitKeys(vs)
      ensures FirstVisit(vs, r[i].key) < FirstVisit(vs, r[i'].key)
    {
      if i' < |acc| {
        RegisterKeepsOldPair(vs, prev, v, acc, i, i');
      } else {
        assert v.key !in Keys(acc);
        RegisterPutsNewLast(vs, prev, v, acc);
        assert i' == |acc| && i < |acc|;
        assert r[i].key in VisitKeys(vs) && r[i'].key in VisitKeys(vs);
      }
    }
    assert OrderedByFirstVisit(r, vs);
  }

  /** Bookmakers come out titled by the name seen the first time their key
      was seen. */
  lemma {:induction false} GroupBooksTitles(vs: seq<Visit>)
    ensures TitledByFirstVisit(GroupBooks(vs), vs)
    decreases |vs|
  {
    if |vs| > 0 {
      var prev := vs[..|vs| - 1];
      GroupBooksTitles(prev);
      RegisterKeepsTitles(vs, GroupBooks(prev));
    }
  }

  /** Bookmakers come out in the order their key was first seen. */
  lemma {:induction false} GroupBooksOrder(vs: seq<Visit>)
    ensures OrderedByFirstVisit(GroupBooks(vs), vs)
    decreases |vs|
  {
    if |vs| > 0 {
      var prev := vs[..|vs| - 1];
      GroupBooksOrder(prev);
      RegisterKeepsOrder(vs, GroupBooks(prev));
    }
  }

  lemma {:induction false} MarketsUnderPointed(vs: seq<Visit>, key: string)
    requires forall j :: 0 <= j < |vs| ==> VisitOk(vs[j])
    ensures forall k :: 0 <= k < |MarketsUnder(vs, key)| ==> WellPointed(MarketsUnder(vs, key)[k])
    decreases |vs|
  {
    if |vs| > 0 {
      var prev := vs[..|vs| - 1];
      assert forall j :: 0 <= j < |prev| ==> prev[j] == vs[j];
      MarketsUnderPointed(prev, key);
    }
  }

  // ---------------------------------------------------------------------
  // The whole normaliser

  /** The canonical document: a one-element list holding the event's id,
      start time, home and away names and the grouped bookmakers. A parse
      error anywhere aborts it. */
  function NormalisePrematch(feed: PrematchFeed): (r: Result<OddsInput, NumberError>)
    ensures r.Failure? <==> Visits(feed.markets, TeamNamed(feed.competitors, "home"), TeamNamed(feed.competitors, "away")).Failure?
    ensures r.Success? ==>
      var home, away := TeamNamed(feed.competitors, "home"), TeamNamed(feed.competitors, "away");
      var vs := Visits(feed.markets, home, away).value;
      r.value == ListInput([DocInput(OddsDoc(feed.eventId, feed.startTime, Some(home), Some(away), Some(GroupBooks(vs))))])
  {
    var home := TeamNamed(feed.competitors, "home");
    var away := TeamNamed(feed.competitors, "away");
    match Visits(feed.markets, home, away)
    case Failure(e) => Failure(e)
    case Success(vs) =>
      Success(ListInput([DocInput(OddsDoc(feed.eventId, feed.startTime, Some(home), Some(away), Some(GroupBooks(vs))))]))
  }

  /** The normaliser raises exactly when some market of the feed raises. */
  lemma NormaliseFailure(feed: PrematchFeed)
    ensures NormalisePrematch(feed).Failure? <==>
      exists i :: 0 <= i < |feed.markets| &&
        MarketVisits(feed.markets[i], TeamNamed(feed.competitors, "home"), TeamNamed(feed.competitors, "away")).Failure?
  {
    VisitsFailure(feed.markets, TeamNamed(feed.competitors, "home"), TeamNamed(feed.competitors, "away"));
  }

  /** A visited key is the key of some book of a kept market. */
  lemma VisitKeyFromFeed(ms: seq<FeedMarket>, home: string, away: string, key: string)
    requires Visits(ms, home, away).Success? && key in VisitKeys(Visits(ms, home, away).value)
    ensures exists i, j :: KeptBook(ms, i, j) && key == BookKey(ms[i].books[j].name.GetOr(""))
  {
    var vs := Visits(ms, home, away).value;
    VisitsFromFeed(ms, home, away);
    var n :| 0 <= n < |vs| && vs[n].key == key;
    assert vs[n] in vs;
    var i, j :| KeptBook(ms, i, j) && VisitBook(MarketKey(ms[i].name).value, home, away, ms[i].books[j]) == Success(Some(vs[n]));
  }

  /** The key of every book of a kept market is visited. */
  lemma VisitKeyOfFeed(ms: seq<FeedMarket>, home: string, away: string, i: int, j: int)
    requires Visits(ms, home, away).Success? && KeptBook(ms, i, j)
    ensures BookKey(ms[i].books[j].name.GetOr("")) in VisitKeys(Visits(ms, home, away).value)
  {
    var vs := Visits(ms, home, away).value;
    VisitsCoverFeed(ms, home, away);
    var v := VisitBook(MarketKey(ms[i].name).value, home, away, ms[i].books[j]).value.value;
    var n :| 0 <= n < |vs| && vs[n] == v;
  }

  /** The normalised document holds one bookmaker per key of a book in a
      kept market, and no other: a book whose outcomes are all dropped
      still has its bookmaker. */
  lemma NormalisedBookKeys(feed: PrematchFeed)
    requires NormalisePrematch(feed).Success?
    ensures var home, away := TeamNamed(feed.competitors, "home"), TeamNamed(feed.competitors, "away");
      forall key :: key in Keys(GroupBooks(Visits(feed.markets, home, away).value)) <==>
        exists i, j :: KeptBook(feed.markets, i, j) && key == BookKey(feed.markets[i].books[j].name.GetOr(""))
  {
    var home, away := TeamNamed(feed.competitors, "home"), TeamNamed(feed.competitors, "away");
    var ms := feed.markets;
    var vs := Visits(ms, home, away).value;
    assert Keys(GroupBooks(vs)) == VisitKeys(vs);
    forall key ensures key in VisitKeys(vs) <==>
      exists i, j :: KeptBook(ms, i, j) && key == BookKey(ms[i].books[j].name.GetOr(""))
    {
      if key in VisitKeys(vs) {
        VisitKeyFromFeed(ms, home, away, key);
      }
      if exists i, j :: KeptBook(ms, i, j) && key == BookKey(ms[i].books[j].name.GetOr("")) {
        var i, j :| KeptBook(ms, i, j) && key == BookKey(ms[i].books[j].name.GetOr(""));
        VisitKeyOfFeed(ms, home, away, i, j);
      }
    }
  }

  // ---------------------------------------------------------------------
  // The normaliser's output is something the consolidator accepts

  lemma {:induction false} OutcomesNeverRaise(key: string, home: string, os: seq<RawOutcome>)
    requires (key == "spreads" || key == "totals") ==> forall i :: 0 <= i < |os| ==> os[i].point.Some?
    ensures !OutcomesRaise(key, Some(home), os)
    decreases |os|
  {
    if |os| > 0 {
      assert forall i :: 1 <= i < |os| ==> os[1..][i - 1] == os[i];
      OutcomesNeverRaise(key, home, os[1..]);
    }
  }

  lemma {:induction false} MarketsNeverRaise(home: string, ms: seq<RawMarket>)
    requires forall k :: 0 <= k < |ms| ==> WellPointed(ms[k])
    ensures !MarketsRaise(Some(home), ms)
    decreases |ms|
  {
    if |ms| > 0 {
      OutcomesNeverRaise(ms[0].key, home, ms[0].outcomes);
      assert forall k :: 1 <= k < |ms| ==> ms[1..][k - 1] == ms[k];
      MarketsNeverRaise(home, ms[1..]);
    }
  }

  lemma {:induction false} BookmakersNeverRaise(home: string, bms: seq<RawBookmaker>)
    requires forall b, k :: 0 <= b < |bms| && 0 <= k < |bms[b].markets| ==> WellPointed(bms[b].markets[k])
    ensures !BookmakersRaise(Some(home), bms)
    decreases |bms|
  {
    if |bms| > 0 {
      MarketsNeverRaise(home, bms[0].markets);
      assert forall b :: 1 <= b < |bms| ==> bms[1..][b - 1] == bms[b];
      BookmakersNeverRaise(home, bms[1..]);
    }
  }

  /** Whatever the prematch normaliser produces, the consolidator processes
      without error: the home team is always present and every spread and
      total outcome carries a line. */
  lemma NormalisedFeedConsolidates(feed: PrematchFeed)
    requires NormalisePrematch(feed).Success?
    ensures ProcessOdds(NormalisePrematch(feed).value).Success?
  {
    var home, away := TeamNamed(feed.competitors, "home"), TeamNamed(feed.competitors, "away");
    var vs := Visits(feed.markets, home, away).value;
    var bms := GroupBooks(vs);
    VisitsOk(feed.markets, home, away);
    forall b, k | 0 <= b < |bms| && 0 <= k < |bms[b].markets| ensures WellPointed(bms[b].markets[k]) {
      MarketsUnderPointed(vs, bms[b].key);
    }
    BookmakersNeverRaise(home, bms);
    var input := NormalisePrematch(feed).value;
    assert Selected(input) == Some(OddsDoc(feed.eventId, feed.startTime, Some(home), Some(away), Some(bms)));
  }
}
