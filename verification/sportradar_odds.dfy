/** The designation-based market mapper of scripts/extraer_procesar_odds.py
    (`_process_odds_data`) and the per-bookmaker loop that merges the mapped
    markets of one bookmaker into one dictionary. */
module SportradarOdds {
  import opened Wrappers
  import opened Values

  /** One outcome; `designation` is a required key, the other three are
      read with `.get` and are `Null` when absent. */
  datatype SrOutcome = SrOutcome(designation: string, odds: Value, pointSpread: Value, total: Value)

  /** One market; `name` is a required key. */
  datatype SrMarket = SrMarket(name: string, outcomes: seq<SrOutcome>)

  datatype SrMoneyline = SrMoneyline(home: Value, away: Value)
  datatype SrSpread = SrSpread(home: Value, away: Value, points: Value)
  datatype SrTotal = SrTotal(over: Value, under: Value, points: Value)

  /** The mapped market: always all three sub-markets with all their keys. */
  datatype Processed = Processed(moneyline: SrMoneyline, spread: SrSpread, total: SrTotal)

  const Blank := Processed(SrMoneyline(Null, Null), SrSpread(Null, Null, Null), SrTotal(Null, Null, Null))

  // ---------------------------------------------------------------------
  // The loop as the source runs it

  /** One outcome of a market named `name`: it overwrites the slots its
      designation routes to. */
  function Step(p: Processed, name: string, o: SrOutcome): Processed {
    if name == "moneyline" then
      if o.designation == "home" then p.(moneyline := p.moneyline.(home := o.odds))
      else if o.designation == "away" then p.(moneyline := p.moneyline.(away := o.odds))
      else p
    else if name == "spread" then
      if o.designation == "home" then p.(spread := p.spread.(home := o.odds, points := o.pointSpread))
      else if o.designation == "away" then p.(spread := p.spread.(away := o.odds))
      else p
    else if name == "total" then
      if o.designation == "over" then p.(total := p.total.(over := o.odds, points := o.total))
      else if o.designation == "under" then p.(total := p.total.(under := o.odds, points := o.total))
      else p
    else p
  }

  function Run(p: Processed, name: string, os: seq<SrOutcome>): Processed
    decreases |os|
  {
    if |os| == 0 then p else Run(Step(p, name, os[0]), name, os[1..])
  }

  // ---------------------------------------------------------------------
  // What each slot ends up holding, independently of the loop

  /** The outcome field a slot is read from. */
  datatype Field = Odds | PointSpread | TotalLine

  function Read(o: SrOutcome, f: Field): Value {
    match f
    case Odds => o.odds
    case PointSpread => o.pointSpread
    case TotalLine => o.total
  }

  /** Position of the last outcome whose designation is in `ds`. */
  function LastIn(os: seq<SrOutcome>, ds: set<string>): (r: Option<nat>)
    ensures r.None? <==> forall i :: 0 <= i < |os| ==> os[i].designation !in ds
    ensures r.Some? ==> r.value < |os| && os[r.value].designation in ds
    ensures r.Some? ==> forall j :: r.value < j < |os| ==> os[j].designation !in ds
    decreases |os|
  {
    if |os| == 0 then None
    else if os[|os| - 1].designation in ds then Some(|os| - 1)
    else
      assert forall i :: 0 <= i < |os| - 1 ==> os[..|os| - 1][i] == os[i];
      LastIn(os[..|os| - 1], ds)
  }

  /** Field `f` of the last outcome designated in `ds`, `d` when there is none. */
  function LastRead(os: seq<SrOutcome>, ds: set<string>, f: Field, d: Value): Value {
    match LastIn(os, ds)
    case None => d
    case Some(i) => Read(os[i], f)
  }

  /** Reading the last designated outcome of `o :: rest` is reading the
      last one of `rest`, with `o` as the fallback when it qualifies. */
  lemma LastReadCons(os: seq<SrOutcome>, ds: set<string>, f: Field, d: Value)
    requires |os| > 0
    ensures LastRead(os, ds, f, d) ==
      LastRead(os[1..], ds, f, if os[0].designation in ds then Read(os[0], f) else d)
  {
    var rest := os[1..];
    assert forall i :: 0 <= i < |rest| ==> rest[i] == os[i + 1];
    var whole, tail := LastIn(os, ds), LastIn(rest, ds);
    if tail.Some? {
      assert os[tail.value + 1].designation in ds;
      assert whole == Some(tail.value + 1);
    } else if os[0].designation in ds {
      assert whole == Some(0);
    }
  }

  /** `p` with every slot a market named `name` routes to overwritten by
      the last outcome designated for it, the slot kept when none is. */
  function Routed(p: Processed, name: string, os: seq<SrOutcome>): Processed {
    if name == "moneyline" then
      p.(moneyline := SrMoneyline(
        LastRead(os, {"home"}, Odds, p.moneyline.home),
        LastRead(os, {"away"}, Odds, p.moneyline.away)))
    else if name == "spread" then
      p.(spread := SrSpread(
        LastRead(os, {"home"}, Odds, p.spread.home),
        LastRead(os, {"away"}, Odds, p.spread.away),
        LastRead(os, {"home"}, PointSpread, p.spread.points)))
    else if name == "total" then
      p.(total := SrTotal(
        LastRead(os, {"over"}, Odds, p.total.over),
        LastRead(os, {"under"}, Odds, p.total.under),
        LastRead(os, {"over", "under"}, TotalLine, p.total.points)))
    else p
  }

  /** The outcome loop overwrites slot by slot: its result is `Routed`. */
  lemma {:induction false} RunIsRouted(p: Processed, name: string, os: seq<SrOutcome>)
    ensures Run(p, name, os) == Routed(p, name, os)
    decreases |os|
  {
    if |os| > 0 {
      var p' := Step(p, name, os[0]);
      RunIsRouted(p', name, os[1..]);
      LastReadCons(os, {"home"}, Odds, p.moneyline.home);
      LastReadCons(os, {"away"}, Odds, p.moneyline.away);
      LastReadCons(os, {"home"}, Odds, p.spread.home);
      LastReadCons(os, {"away"}, Odds, p.spread.away);
      LastReadCons(os, {"home"}, PointSpread, p.spread.points);
      LastReadCons(os, {"over"}, Odds, p.total.over);
      LastReadCons(os, {"under"}, Odds, p.total.under);
      LastReadCons(os, {"over", "under"}, TotalLine, p.total.points);
    }
  }

  /** `_process_odds_data`: all three sub-markets, all `Null` but the one the
      market names; in that one each slot holds the field of the last outcome
      designated for it (`Null` when none is). Spread points come from home
      outcomes only; total points from the last over or under outcome. */
  function ProcessMarket(m: SrMarket): (r: Processed)
    ensures m.name != "moneyline" ==> r.moneyline == Blank.moneyline
    ensures m.name != "spread" ==> r.spread == Blank.spread
    ensures m.name != "total" ==> r.total == Blank.total
    ensures m.name == "moneyline" ==> r.moneyline == SrMoneyline(
      LastRead(m.outcomes, {"home"}, Odds, Null), LastRead(m.outcomes, {"away"}, Odds, Null))
    ensures m.name == "spread" ==> r.spread == SrSpread(
      LastRead(m.outcomes, {"home"}, Odds, Null), LastRead(m.outcomes, {"away"}, Odds, Null),
      LastRead(m.outcomes, {"home"}, PointSpread, Null))
    ensures m.name == "total" ==> r.total == SrTotal(
      LastRead(m.outcomes, {"over"}, Odds, Null), LastRead(m.outcomes, {"under"}, Odds, Null),
      LastRead(m.outcomes, {"over", "under"}, TotalLine, Null))
  {
    RunIsRouted(Blank, m.name, m.outcomes);
    Run(Blank, m.name, m.outcomes)
  }

  /** A later outcome with the same designation overwrites an earlier one. */
  lemma LaterOutcomeWins(a: SrOutcome, b: SrOutcome)
    requires a.designation == b.designation == "home"
    ensures ProcessMarket(SrMarket("moneyline", [a, b])).moneyline.home == b.odds
  {
    assert LastIn([a, b], {"home"}) == Some(1);
  }

  /** An away spread outcome never sets the spread line. */
  lemma AwaySpreadHasNoLine(o: SrOutcome)
    requires o.designation == "away"
    ensures ProcessMarket(SrMarket("spread", [o])).spread == SrSpread(Null, o.odds, Null)
  {
    assert LastIn([o], {"home"}) == None;
    assert LastIn([o], {"away"}) == Some(0);
  }

  // ---------------------------------------------------------------------
  // Merging one bookmaker's markets

  /** One value of the merged dictionary. */
  datatype SubMarket = MoneylineEntry(moneyline: SrMoneyline) | SpreadEntry(spread: SrSpread) | TotalEntry(total: SrTotal)

  /** A mapped market as a dictionary keyed by sub-market name. */
  function AsMap(p: Processed): map<string, SubMarket> {
    map["moneyline" := MoneylineEntry(p.moneyline), "spread" := SpreadEntry(p.spread), "total" := TotalEntry(p.total)]
  }

  /** The merge loop as written: every key of every mapped market is
      copied into the bookmaker's dictionary, later markets overwriting
      earlier ones. */
  function MergeAsWritten(acc: map<string, SubMarket>, ms: seq<SrMarket>): (r: map<string, SubMarket>)
    ensures acc.Keys <= r.Keys
    ensures |ms| > 0 ==> r.Keys == acc.Keys + {"moneyline", "spread", "total"}
    decreases |ms|
  {
    if |ms| == 0 then acc else MergeAsWritten(acc + AsMap(ProcessMarket(ms[0])), ms[1..])
  }

  /** Because every mapped market carries all three keys, the bookmaker's
      dictionary is exactly the mapping of its last market, and empty when
      it has no markets. */
  lemma {:induction false} MergeKeepsOnlyLast(acc: map<string, SubMarket>, ms: seq<SrMarket>)
    requires acc.Keys <= {"moneyline", "spread", "total"}
    ensures |ms| == 0 ==> MergeAsWritten(acc, ms) == acc
    ensures |ms| > 0 ==> MergeAsWritten(acc, ms) == AsMap(ProcessMarket(ms[|ms| - 1]))
    decreases |ms|
  {
    if |ms| > 0 {
      var next := acc + AsMap(ProcessMarket(ms[0]));
      AsMapOverwrites(acc, ProcessMarket(ms[0]));
      assert MergeAsWritten(acc, ms) == MergeAsWritten(next, ms[1..]);
      MergeKeepsOnlyLast(next, ms[1..]);
      if |ms| > 1 {
        assert ms[1..][|ms[1..]| - 1] == ms[|ms| - 1];
      }
    }
  }

  /** A mapped market overwrites every key a bookmaker's dictionary can hold. */
  lemma AsMapOverwrites(acc: map<string, SubMarket>, p: Processed)
    requires acc.Keys <= {"moneyline", "spread", "total"}
    ensures acc + AsMap(p) == AsMap(p)
  {
    assert AsMap(p).Keys == {"moneyline", "spread", "total"};
  }

  /** A moneyline market followed by a total market: the merge as written
      reports no moneyline prices at all. */
  lemma MoneylineWipedByTotal(home: real, line: real)
    ensures var ms := [SrMarket("moneyline", [SrOutcome("home", Num(home), Null, Null)]),
                       SrMarket("total", [SrOutcome("over", Num(1.9), Null, Num(line))])];
      "moneyline" in MergeAsWritten(map[], ms) &&
      MergeAsWritten(map[], ms)["moneyline"] == MoneylineEntry(SrMoneyline(Null, Null))
  {
    var ms := [SrMarket("moneyline", [SrOutcome("home", Num(home), Null, Null)]),
               SrMarket("total", [SrOutcome("over", Num(1.9), Null, Num(line))])];
    MergeKeepsOnlyLast(map[], ms);
  }

  /** Position of the last market named `name`. */
  function LastMarketNamed(ms: seq<SrMarket>, name: string): (r: Option<nat>)
    ensures r.None? <==> forall i :: 0 <= i < |ms| ==> ms[i].name != name
    ensures r.Some? ==> r.value < |ms| && ms[r.value].name == name
    ensures r.Some? ==> forall j :: r.value < j < |ms| ==> ms[j].name != name
    decreases |ms|
  {
    if |ms| == 0 then None
    else if ms[|ms| - 1].name == name then Some(|ms| - 1)
    else
      assert forall i :: 0 <= i < |ms| - 1 ==> ms[..|ms| - 1][i] == ms[i];
      LastMarketNamed(ms[..|ms| - 1], name)
  }

  /** The merge as evidently intended: each market contributes only the
      sub-market it names, so markets of different kinds accumulate. */
  function MergeIntended(acc: map<string, SubMarket>, ms: seq<SrMarket>): (r: map<string, SubMarket>)
    ensures acc.Keys <= r.Keys <= acc.Keys + {"moneyline", "spread", "total"}
    decreases |ms|
  {
    if |ms| == 0 then acc
    else
      var data := AsMap(ProcessMarket(ms[0]));
      var acc' := if ms[0].name in data then acc[ms[0].name := data[ms[0].name]] else acc;
      MergeIntended(acc', ms[1..])
  }

  /** The last market named `name` seen from the front: the last one in the
      tail if there is one, else the head if it is so named. */
  lemma LastMarketNamedTail(ms: seq<SrMarket>, name: string)
    requires |ms| > 0
    ensures LastMarketNamed(ms[1..], name).Some? ==>
      LastMarketNamed(ms, name) == Some(LastMarketNamed(ms[1..], name).value + 1)
    ensures LastMarketNamed(ms[1..], name).None? ==>
      LastMarketNamed(ms, name) == (if ms[0].name == name then Some(0) else None)
  {
    var rest := ms[1..];
    var whole, tail := LastMarketNamed(ms, name), LastMarketNamed(rest, name);
    if tail.Some? {
      assert ms[tail.value + 1] == rest[tail.value];
    }
  }

  /** With the intended merge, the dictionary holds a sub-market exactly when
      some market names it, and then holds the mapping of the last such
      market; nothing else is added. */
  lemma {:induction false} MergeIntendedCollects(acc: map<string, SubMarket>, ms: seq<SrMarket>, key: string)
    requires key in AsMap(Blank)
    ensures key in MergeIntended(acc, ms) <==> key in acc || LastMarketNamed(ms, key).Some?
    ensures LastMarketNamed(ms, key).Some? ==>
      MergeIntended(acc, ms)[key] == AsMap(ProcessMarket(ms[LastMarketNamed(ms, key).value]))[key]
    ensures LastMarketNamed(ms, key).None? && key in acc ==> MergeIntended(acc, ms)[key] == acc[key]
    decreases |ms|
  {
    if |ms| > 0 {
      var data := AsMap(ProcessMarket(ms[0]));
      var acc' := if ms[0].name in data then acc[ms[0].name := data[ms[0].name]] else acc;
      assert MergeIntended(acc, ms) == MergeIntended(acc', ms[1..]);
      MergeIntendedCollects(acc', ms[1..], key);
      LastMarketNamedTail(ms, key);
      if ms[0].name == key {
        assert key in data && acc'[key] == data[key];
      } else {
        assert key in acc' <==> key in acc;
        assert key in acc ==> acc'[key] == acc[key];
      }
    }
  }

  /** The same two markets as above, merged as intended: the moneyline
      price survives. */
  lemma MoneylineKeptWhenIntended(home: real, line: real)
    ensures var ms := [SrMarket("moneyline", [SrOutcome("home", Num(home), Null, Null)]),
                       SrMarket("total", [SrOutcome("over", Num(1.9), Null, Num(line))])];
      "moneyline" in MergeIntended(map[], ms) &&
      MergeIntended(map[], ms)["moneyline"] == MoneylineEntry(SrMoneyline(Num(home), Null))
  {
    var ms := [SrMarket("moneyline", [SrOutcome("home", Num(home), Null, Null)]),
               SrMarket("total", [SrOutcome("over", Num(1.9), Null, Num(line))])];
    MergeIntendedCollects(map[], ms, "moneyline");
    assert LastMarketNamed(ms, "moneyline") == Some(0);
    assert LastIn(ms[0].outcomes, {"home"}) == Some(0);
    assert LastIn(ms[0].outcomes, {"away"}) == None;
  }
}
