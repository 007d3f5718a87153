/** The player-props normaliser: it reduces a provider's player-props feed
    for one event to the players that have at least one market whose name
    mentions a key statistic, copying books and outcomes and parsing the
    two numeric outcome fields. */
module PropsFilter {
  import opened Wrappers
  import opened Values
  import Text
  import Seqs

  /** One outcome as the feed sends it; `None` is an absent key. */
  datatype RawPropOutcome = RawPropOutcome(kind: Option<string>, oddsDecimal: RawNumber, total: RawNumber)
  datatype RawPropBook = RawPropBook(id: Option<string>, name: Option<string>, outcomes: seq<RawPropOutcome>)
  datatype RawPropMarket = RawPropMarket(id: Option<string>, name: Option<string>, books: seq<RawPropBook>)
  /** The player's id, name and competitor id are required keys. */
  datatype RawPlayer = RawPlayer(id: string, name: string, competitorId: string, markets: seq<RawPropMarket>)
  /** The event: its optional id, its competitors' names and its players. */
  datatype RawPropsFeed = RawPropsFeed(eventId: Option<string>, competitors: seq<string>, players: seq<RawPlayer>)

  datatype PropOutcome = PropOutcome(kind: Option<string>, oddsDecimal: real, total: real)
  datatype PropBook = PropBook(bookId: Option<string>, bookName: Option<string>, outcomes: seq<PropOutcome>)
  datatype PropMarket = PropMarket(marketId: Option<string>, marketName: string, books: seq<PropBook>)
  datatype PlayerProps = PlayerProps(playerId: string, playerName: string, teamId: string, markets: seq<PropMarket>)
  /** The filtered document (its generation timestamp is not modelled). */
  datatype PropsDocument = PropsDocument(eventId: string, teams: seq<string>, players: seq<PlayerProps>)

  /** The key phrases a market name must contain to be kept. */
  const KeyMarkets: seq<string> := [
    "total points", "total assists", "total rebounds", "total 3-point",
    "total steals", "total blocks", "total turnovers", "total 2-point",
    "double double", "triple double"
  ]

  /** `any(k in hay for k in keys)`, scanning the keys in order. */
  function AnyKeyIn(hay: string, keys: seq<string>): bool
    decreases |keys|
  {
    if |keys| == 0 then false
    else Text.Contains(hay, keys[0]) || AnyKeyIn(hay, keys[1..])
  }

  /** The scan finds a key exactly when some key occurs in the text. */
  lemma {:induction false} AnyKeyInMeans(hay: string, keys: seq<string>)
    ensures AnyKeyIn(hay, keys) <==> exists k :: 0 <= k < |keys| && Text.Contains(hay, keys[k])
    decreases |keys|
  {
    if |keys| > 0 {
      AnyKeyInMeans(hay, keys[1..]);
      assert forall k :: 1 <= k < |keys| ==> keys[k] == keys[1..][k - 1];
    }
  }

  /** A market is interesting when its lower-cased name contains one of the
      key phrases; so a name shorter than every key phrase (the shortest
      has twelve characters) is never kept. */
  function Interesting(name: string): (kept: bool)
    ensures kept ==> |name| >= 12
  {
    var lowered := Text.Lower(name);
    AnyKeyInMeans(lowered, KeyMarkets);
    KeyMarketsLong();
    AnyKeyIn(lowered, KeyMarkets)
  }

  lemma KeyMarketsLong()
    ensures forall k :: 0 <= k < |KeyMarkets| ==> |KeyMarkets[k]| >= 12
  {
  }

  /** The test keeps a name exactly when its lower-cased form contains one
      of the key phrases. */
  lemma InterestingMeans(name: string)
    ensures Interesting(name) <==> exists k :: 0 <= k < |KeyMarkets| && Text.Contains(Text.Lower(name), KeyMarkets[k])
  {
    AnyKeyInMeans(Text.Lower(name), KeyMarkets);
  }

  /** The test ignores letter case. */
  lemma InterestingIgnoresCase(name: string)
    ensures Interesting(Text.Lower(name)) == Interesting(name)
  {
    Text.LowerIdempotent(name);
  }

  /** A market without a name (read as the empty string) is never kept,
      because every key phrase is non-empty. */
  lemma NamelessNeverInteresting()
    ensures !Interesting("")
  {
    InterestingMeans("");
    assert Text.Lower("") == "";
    forall k | 0 <= k < |KeyMarkets|
      ensures !Text.Contains("", KeyMarkets[k])
    {
      assert |KeyMarkets[k]| > 0;
    }
  }

  /** A name that mentions a key phrase in any letter case is kept. */
  lemma MixedCaseNameKept()
    ensures Interesting("Player Total Rebounds")
  {
    var name := "Player Total Rebounds";
    var lowered := Text.Lower(name);
    assert Text.Contains(lowered, KeyMarkets[2]) by {
      assert lowered[7..21] == "total rebounds";
      assert Text.OccursAt(KeyMarkets[2], lowered, 7);
    }
    InterestingMeans(name);
  }

  /** `float(x)` with a default of `0`. */
  function FloatOrZero(n: RawNumber): Result<real, NumberError> {
    ToFloat(n, Some(0.0))
  }

  /** One outcome: type copied, odds and total parsed, each defaulting to
      zero; an unparseable value raises. */
  function ConvertOutcome(o: RawPropOutcome): (r: Result<PropOutcome, NumberError>)
    ensures r.Failure? <==> o.oddsDecimal.Unparseable? || o.total.Unparseable?
    ensures r.Success? ==> r.value.kind == o.kind
    ensures r.Success? ==> r.value.oddsDecimal == (if o.oddsDecimal.Parsed? then o.oddsDecimal.x else 0.0)
    ensures r.Success? ==> r.value.total == (if o.total.Parsed? then o.total.x else 0.0)
  {
    match FloatOrZero(o.oddsDecimal)
    case Failure(e) => Failure(e)
    case Success(odds) =>
      match FloatOrZero(o.total)
      case Failure(e) => Failure(e)
      case Success(total) => Success(PropOutcome(o.kind, odds, total))
  }

  function KeepOutcome(o: RawPropOutcome): Result<Option<PropOutcome>, NumberError> {
    match ConvertOutcome(o)
    case Failure(e) => Failure(e)
    case Success(v) => Success(Some(v))
  }

  /** One book: id and name copied, every outcome converted in order. */
  function ConvertBook(b: RawPropBook): (r: Result<PropBook, NumberError>)
    ensures r.Failure? <==> exists i :: 0 <= i < |b.outcomes| && ConvertOutcome(b.outcomes[i]).Failure?
    ensures r.Success? ==> r.value.bookId == b.id && r.value.bookName == b.name
    ensures r.Success? ==> (|r.value.outcomes| == |b.outcomes| &&
      forall i :: 0 <= i < |b.outcomes| ==> ConvertOutcome(b.outcomes[i]) == Success(r.value.outcomes[i]))
  {
    Seqs.CollectKeptFailure(b.outcomes, KeepOutcome);
    Seqs.CollectAll(b.outcomes, KeepOutcome);
    match Seqs.CollectKept(b.outcomes, KeepOutcome)
    case Failure(e) => Failure(e)
    case Success(outcomes) => Success(PropBook(b.id, b.name, outcomes))
  }

  function KeepBook(b: RawPropBook): Result<Option<PropBook>, NumberError> {
    match ConvertBook(b)
    case Failure(e) => Failure(e)
    case Success(v) => Success(Some(v))
  }

  /** The book loop of a kept market raises exactly when some book raises,
      and otherwise converts the books one-to-one in order. */
  lemma BooksConverted(bs: seq<RawPropBook>)
    ensures Seqs.CollectKept(bs, KeepBook).Failure? <==> exists i :: 0 <= i < |bs| && ConvertBook(bs[i]).Failure?
    ensures Seqs.CollectKept(bs, KeepBook).Success? ==>
      var books := Seqs.CollectKept(bs, KeepBook).value;
      |books| == |bs| && forall i :: 0 <= i < |bs| ==> ConvertBook(bs[i]) == Success(books[i])
  {
    Seqs.CollectKeptFailure(bs, KeepBook);
    Seqs.CollectAll(bs, KeepBook);
  }

  /** One market: skipped unless interesting; otherwise id and name copied
      and every book converted in order. Skipped markets are never parsed,
      so they cannot raise. */
  function ConvertMarket(m: RawPropMarket): (r: Result<Option<PropMarket>, NumberError>)
    ensures r.Failure? <==> (Interesting(m.name.GetOr("")) &&
      exists i :: 0 <= i < |m.books| && ConvertBook(m.books[i]).Failure?)
    ensures r.Success? ==> (r.value.Some? <==> Interesting(m.name.GetOr("")))
    ensures r.Success? && r.value.Some? ==>
      m.name == Some(r.value.value.marketName) && r.value.value.marketId == m.id &&
      |r.value.value.books| == |m.books| &&
      forall i :: 0 <= i < |m.books| ==> ConvertBook(m.books[i]) == Success(r.value.value.books[i])
  {
    if !Interesting(m.name.GetOr("")) then Success(None)
    else
      assert m.name.Some? by {
        NamelessNeverInteresting();
      }
      BooksConverted(m.books);
      match Seqs.CollectKept(m.books, KeepBook)
      case Failure(e) => Failure(e)
      case Success(books) => Success(Some(PropMarket(m.id, m.name.value, books)))
  }

  /** The market loop of one player keeps nothing exactly when no market
      is interesting. */
  lemma MarketsKeptNone(ms: seq<RawPropMarket>)
    requires Seqs.CollectKept(ms, ConvertMarket).Success?
    ensures |Seqs.CollectKept(ms, ConvertMarket).value| == 0 <==>
      forall i :: 0 <= i < |ms| ==> !Interesting(ms[i].name.GetOr(""))
  {
    Seqs.CollectKeptFailure(ms, ConvertMarket);
    Seqs.CollectKeptMembers(ms, ConvertMarket);
    forall i | 0 <= i < |ms|
      ensures ConvertMarket(ms[i]) == Success(None) <==> !Interesting(ms[i].name.GetOr(""))
    {
      assert ConvertMarket(ms[i]).Success?;
    }
  }

  /** Every market the loop keeps is interesting. */
  lemma MarketsKeptInteresting(ms: seq<RawPropMarket>)
    requires Seqs.CollectKept(ms, ConvertMarket).Success?
    ensures var kept := Seqs.CollectKept(ms, ConvertMarket).value;
      forall k :: 0 <= k < |kept| ==> Interesting(kept[k].marketName)
  {
    Seqs.CollectKeptMembers(ms, ConvertMarket);
  }

  /** Every market the loop keeps is some input market's conversion. */
  lemma MarketsKeptFrom(ms: seq<RawPropMarket>)
    requires Seqs.CollectKept(ms, ConvertMarket).Success?
    ensures var kept := Seqs.CollectKept(ms, ConvertMarket).value;
      forall k :: 0 <= k < |kept| ==> exists i :: 0 <= i < |ms| && ConvertMarket(ms[i]) == Success(Some(kept[k]))
  {
    Seqs.CollectKeptMembers(ms, ConvertMarket);
  }

  /** One player: kept, with its interesting markets in order, exactly when
      at least one of its markets is interesting. */
  function ConvertPlayer(p: RawPlayer): (r: Result<Option<PlayerProps>, NumberError>)
    ensures r.Failure? <==> exists i :: 0 <= i < |p.markets| && ConvertMarket(p.markets[i]).Failure?
    ensures r.Success? ==>
      (r.value.Some? <==> exists i :: 0 <= i < |p.markets| && Interesting(p.markets[i].name.GetOr("")))
    ensures r.Success? && r.value.Some? ==>
      r.value.value.playerId == p.id && r.value.value.playerName == p.name &&
      r.value.value.teamId == p.competitorId && 0 < |r.value.value.markets| <= |p.markets|
    ensures r.Success? && r.value.Some? ==>
      forall k :: 0 <= k < |r.value.value.markets| ==>
        Interesting(r.value.value.markets[k].marketName) &&
        exists i :: 0 <= i < |p.markets| && ConvertMarket(p.markets[i]) == Success(Some(r.value.value.markets[k]))
    ensures r.Success? ==> Seqs.CollectKept(p.markets, ConvertMarket).Success?
    ensures r.Success? ==>
      (if r.value.Some? then r.value.value.markets else []) == Seqs.CollectKept(p.markets, ConvertMarket).value
  {
    Seqs.CollectKeptFailure(p.markets, ConvertMarket);
    match Seqs.CollectKept(p.markets, ConvertMarket)
    case Failure(e) => Failure(e)
    case Success(markets) =>
      MarketsKeptNone(p.markets);
      MarketsKeptInteresting(p.markets);
      MarketsKeptFrom(p.markets);
      if |markets| == 0 then Success(None)
      else Success(Some(PlayerProps(p.id, p.name, p.competitorId, markets)))
  }

  /** The markets a converted player carries; none when it is dropped. */
  function KeptMarkets(r: Result<Option<PlayerProps>, NumberError>): seq<PropMarket>
    requires r.Success?
  {
    if r.value.Some? then r.value.value.markets else []
  }

  /** Markets keep their input order: converting a player whose markets are
      `a + b` keeps the markets kept from `a`, then those kept from `b`. */
  lemma PlayerMarketsAppend(p: RawPlayer, a: seq<RawPropMarket>, b: seq<RawPropMarket>)
    requires p.markets == a + b
    ensures ConvertPlayer(p).Success? <==>
      ConvertPlayer(p.(markets := a)).Success? && ConvertPlayer(p.(markets := b)).Success?
    ensures ConvertPlayer(p).Success? ==>
      KeptMarkets(ConvertPlayer(p)) ==
        KeptMarkets(ConvertPlayer(p.(markets := a))) + KeptMarkets(ConvertPlayer(p.(markets := b)))
  {
    Seqs.CollectKeptAppend(a, b, ConvertMarket);
    Seqs.CollectKeptFailure(a + b, ConvertMarket);
    Seqs.CollectKeptFailure(a, ConvertMarket);
    Seqs.CollectKeptFailure(b, ConvertMarket);
  }

  /** A converted player carries the conversion of every interesting input
      market. */
  lemma PlayerMarketsComplete(p: RawPlayer)
    requires ConvertPlayer(p).Success?
    ensures forall i :: 0 <= i < |p.markets| && Interesting(p.markets[i].name.GetOr("")) ==>
      ConvertMarket(p.markets[i]).Success? && ConvertMarket(p.markets[i]).value.Some? &&
      ConvertMarket(p.markets[i]).value.value in KeptMarkets(ConvertPlayer(p))
  {
    Seqs.CollectKeptComplete(p.markets, ConvertMarket);
  }

  /** Every player the loop keeps has markets. */
  lemma PlayersKept(ps: seq<RawPlayer>)
    requires Seqs.CollectKept(ps, ConvertPlayer).Success?
    ensures var kept := Seqs.CollectKept(ps, ConvertPlayer).value;
      forall k :: 0 <= k < |kept| ==>
        |kept[k].markets| > 0
  {
    Seqs.CollectKeptMembers(ps, ConvertPlayer);
    var kept := Seqs.CollectKept(ps, ConvertPlayer).value;
  }

  /** Every player the loop keeps is some input player's conversion. */
  lemma PlayersKeptFrom(ps: seq<RawPlayer>)
    requires Seqs.CollectKept(ps, ConvertPlayer).Success?
    ensures var kept := Seqs.CollectKept(ps, ConvertPlayer).value;
      forall k :: 0 <= k < |kept| ==>
        exists i :: 0 <= i < |ps| && ConvertPlayer(ps[i]) == Success(Some(kept[k]))
  {
    Seqs.CollectKeptMembers(ps, ConvertPlayer);
  }

  /** The whole feed: event id (default empty), competitor names, and the
      kept players in feed order. */
  function FilterPlayerProps(feed: RawPropsFeed): (r: Result<PropsDocument, NumberError>)
    ensures r.Failure? <==> exists i :: 0 <= i < |feed.players| && ConvertPlayer(feed.players[i]).Failure?
    ensures r.Success? ==> r.value.eventId == feed.eventId.GetOr("") && r.value.teams == feed.competitors
    ensures r.Success? ==> |r.value.players| <= |feed.players|
    ensures r.Success? ==> forall k :: 0 <= k < |r.value.players| ==>
      |r.value.players[k].markets| > 0 &&
      exists i :: 0 <= i < |feed.players| && ConvertPlayer(feed.players[i]) == Success(Some(r.value.players[k]))
  {
    Seqs.CollectKeptFailure(feed.players, ConvertPlayer);
    match Seqs.CollectKept(feed.players, ConvertPlayer)
    case Failure(e) => Failure(e)
    case Success(players) =>
      PlayersKept(feed.players);
      PlayersKeptFrom(feed.players);
      Success(PropsDocument(feed.eventId.GetOr(""), feed.competitors, players))
  }

  /** A player is quiet when none of its markets is interesting. */
  predicate Quiet(p: RawPlayer) {
    forall j :: 0 <= j < |p.markets| ==> !Interesting(p.markets[j].name.GetOr(""))
  }

  /** The filtered document has no players exactly when every player in the
      feed is quiet. */
  lemma NoPlayersIffAllQuiet(feed: RawPropsFeed)
    requires FilterPlayerProps(feed).Success?
    ensures |FilterPlayerProps(feed).value.players| == 0 <==>
      forall i :: 0 <= i < |feed.players| ==> Quiet(feed.players[i])
  {
    Seqs.CollectKeptMembers(feed.players, ConvertPlayer);
    Seqs.CollectKeptFailure(feed.players, ConvertPlayer);
    forall i | 0 <= i < |feed.players|
      ensures ConvertPlayer(feed.players[i]) == Success(None) <==> Quiet(feed.players[i])
    {
      assert ConvertPlayer(feed.players[i]).Success?;
    }
  }

  /** Players keep their feed order: filtering two halves of the player list
      and concatenating gives the filtered whole. */
  lemma FilterKeepsPlayerOrder(feed: RawPropsFeed, a: seq<RawPlayer>, b: seq<RawPlayer>)
    requires feed.players == a + b
    ensures FilterPlayerProps(feed).Success? <==>
      FilterPlayerProps(feed.(players := a)).Success? && FilterPlayerProps(feed.(players := b)).Success?
    ensures FilterPlayerProps(feed).Success? ==>
      FilterPlayerProps(feed).value.players ==
        FilterPlayerProps(feed.(players := a)).value.players + FilterPlayerProps(feed.(players := b)).value.players
  {
    Seqs.CollectKeptAppend(a, b, ConvertPlayer);
  }
}
