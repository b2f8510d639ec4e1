/** src/engines/fle.js, FLE v0.3: for each requested market, a season
    Poisson model, a head-to-head layer blended 60/40, a market-odds layer
    blended 70/30, the conflict rules and the tier classifier.
    `e` stands for x ↦ Math.exp(-x). */
module Fle {
  import opened Common
  import opened Poisson
  import opened OddsFeed
  import opened Prices
  import opened HeadToHead
  import opened EngineTypes

  const MinMatches := 5
  const MinH2H := 3
  /** A season / head-to-head gap above this is a conflict. */
  const StatH2HDelta := 18
  /** A model / market gap above this is a conflict. */
  const ModelOddsDelta := 20
  /** A market implying less than this is a conflict. */
  const OddsFloor := 50

  // ---------------------------------------------------------------------------
  // The classifier

  /** probabilityToStrength: the tier is one step up for every threshold reached. */
  function ProbabilityToStrength(p: int): (s: Strength)
    ensures Rank(s) == Reached(p)
  {
    if p >= 90 then Banker
    else if p >= 85 then Strong
    else if p >= 80 then Safe
    else if p >= 70 then Moderate
    else if p >= 60 then Risky
    else Trap
  }

  /** The tier never rises as the percentage falls. */
  lemma StrengthMonotone(p: int, q: int)
    requires p <= q
    ensures Rank(ProbabilityToStrength(p)) <= Rank(ProbabilityToStrength(q))
  {
  }

  /** TRAP is exactly below 60; the boundaries sit at the thresholds. */
  lemma StrengthBoundaries(p: int)
    ensures ProbabilityToStrength(p) == Trap <==> p < 60
    ensures ProbabilityToStrength(90) == Banker && ProbabilityToStrength(89) == Strong
    ensures ProbabilityToStrength(60) == Risky && ProbabilityToStrength(59) == Trap
  {
  }

  // ---------------------------------------------------------------------------
  // The season model and the head-to-head layer

  /** calcOver */
  function CalcOver(e: real -> real, line: real, home: TeamStats, away: TeamStats,
                    h2h: Option<Summary>, h2hOk: bool): (r: StatResult)
    requires h2hOk ==> h2h.Some?
    ensures r.prob <= 97
    ensures r.conflict ==> h2hOk
  {
    var expGoals := ExpGoals(home, away);
    var statProb := OverTail(e, expGoals, line);
    var h2hProb := if h2hOk then OverRate(line, h2h.value) else statProb;
    var conflict := h2hOk && Abs(statProb - h2hProb) > StatH2HDelta;
    var blended := if h2hOk then Blend(statProb, h2hProb) else statProb;
    var note := SeasonOverNote(expGoals, statProb, line,
                               if h2hOk then Some(H2HNote(h2h.value.totalMatches, h2hProb)) else None);
    StatResult(Min(97, blended), note, conflict)
  }

  /** 1 − P(a team with this average scores no goal). */
  function ScoringProb(e: real -> real, avg: real): real
  {
    1.0 - Pmf(e, avg, 0)
  }

  /** The season BTTS estimate: round(P(home scores) · P(away scores) · 100). */
  function BttsStatProb(e: real -> real, home: TeamStats, away: TeamStats): int
  {
    Round(ScoringProb(e, home.goalsForAvg) * ScoringProb(e, away.goalsForAvg) * 100.0)
  }

  /** calcBTTS */
  function CalcBtts(e: real -> real, home: TeamStats, away: TeamStats,
                    h2h: Option<Summary>, h2hOk: bool): (r: StatResult)
    requires h2hOk ==> h2h.Some?
    ensures r.prob <= 97
    ensures r.conflict ==> h2hOk
  {
    var statProb := BttsStatProb(e, home, away);
    var h2hProb := if h2hOk then h2h.value.bttsRate else statProb;
    var conflict := h2hOk && Abs(statProb - h2hProb) > StatH2HDelta;
    var blended := if h2hOk then Blend(statProb, h2hProb) else statProb;
    var note := SeasonBttsNote(ScoringProb(e, home.goalsForAvg), ScoringProb(e, away.goalsForAvg), statProb,
                               if h2hOk then Some(H2HNote(h2h.value.totalMatches, h2hProb)) else None);
    StatResult(Min(97, blended), note, conflict)
  }

  /** The season BTTS estimate is a percentage for non-negative averages. */
  lemma BttsStatProbBounds(e: real -> real, home: TeamStats, away: TeamStats)
    requires IsNegExp(e) && 0.0 <= home.goalsForAvg && 0.0 <= away.goalsForAvg
    ensures 0 <= BttsStatProb(e, home, away) <= 100
  {
    ScoringChance(e, home.goalsForAvg);
    ScoringChance(e, away.goalsForAvg);
    var a := ScoringProb(e, home.goalsForAvg);
    var b := ScoringProb(e, away.goalsForAvg);
    MulNonnegative(a, b);
    MulNonnegative(a, 1.0 - b);
    assert a * (1.0 - b) == a - a * b;
    RoundMonotone(0.0, a * b * 100.0);
    RoundMonotone(a * b * 100.0, 100.0);
    RoundOfInt(0);
    RoundOfInt(100);
  }

  lemma MulNonnegative(x: real, y: real)
    requires 0.0 <= x && 0.0 <= y
    ensures 0.0 <= x * y
  {
  }

  /** The blend is monotone in both of its inputs. */
  lemma BlendMonotone(a: int, b: int, c: int, d: int)
    requires a <= c && b <= d
    ensures Blend(a, b) <= Blend(c, d)
  {
    RoundMonotone(a as real * 0.6 + b as real * 0.4, c as real * 0.6 + d as real * 0.4);
  }

  /** With the head-to-head rates ordered as every summary orders them, the
      model gives Over 3.5 at most Over 2.5 and Over 2.5 at most Over 1.5. */
  lemma OverProbsOrdered(e: real -> real, home: TeamStats, away: TeamStats,
                         h2h: Option<Summary>, h2hOk: bool)
    requires IsNegExp(e) && 0.0 <= ExpGoals(home, away)
    requires h2hOk ==> h2h.Some? && RatesOrdered(h2h.value)
    ensures CalcOver(e, 3.5, home, away, h2h, h2hOk).prob <= CalcOver(e, 2.5, home, away, h2h, h2hOk).prob
    ensures CalcOver(e, 2.5, home, away, h2h, h2hOk).prob <= CalcOver(e, 1.5, home, away, h2h, h2hOk).prob
  {
    var lam := ExpGoals(home, away);
    OverLinesOrdered(e, lam);
    if h2hOk {
      var h := h2h.value;
      BlendMonotone(OverTail(e, lam, 3.5), h.over35Rate, OverTail(e, lam, 2.5), h.over25Rate);
      BlendMonotone(OverTail(e, lam, 2.5), h.over25Rate, OverTail(e, lam, 1.5), h.over15Rate);
    }
  }

  // ---------------------------------------------------------------------------
  // The market-odds layer

  /** marketIdToParams */
  function MarketIdToParams(id: string): (r: Option<OddsParams>)
    ensures r.Some? <==> KnownMarket(id)
    ensures r.Some? ==> (r.value.key == "btts" <==> r.value.line.None?)
    ensures KnownMarket(id) && id != "btts" ==> r == Some(OddsParams("totals", Some(LineOf(id))))
    ensures id == "btts" ==> r == Some(OddsParams("btts", None))
  {
    match id
    case "o15" => Some(OddsParams("totals", Some(1.5)))
    case "o25" => Some(OddsParams("totals", Some(2.5)))
    case "o35" => Some(OddsParams("totals", Some(3.5)))
    case "btts" => Some(OddsParams("btts", None))
    case _ => None
  }

  /** `Math.round(x * 100) / 100` */
  function Cents(x: real): real
  {
    Round(x * 100.0) as real / 100.0
  }

  /** What extractBestOdds reports. */
  datatype BestOdds = BestOdds(
    medianOdds: real, bestOdds: real, impliedProb: int, bookmakerCount: nat, line: Option<real>)

  /** The quote of one market's bookmaker entries: nothing when no wanted
      price is quoted; otherwise the median of the sorted prices (rounded to
      cents for display), the highest price, the implied percentage of the
      median and the number of bookmaker entries. */
  function Quote(marketData: seq<BookmakerMarket>, line: Option<real>): (r: Option<BestOdds>)
    ensures r.None? <==> |CollectPrices(marketData, line)| == 0
    ensures r.Some? ==>
              var prices := CollectPrices(marketData, line);
              && r.value.medianOdds == Cents(Median(SortPrices(prices)))
              && r.value.impliedProb == ImpliedProb(Median(SortPrices(prices)))
              && 0 <= r.value.impliedProb <= 100
              && r.value.bestOdds == MaxOf(prices)
              && r.value.bookmakerCount == |marketData|
              && r.value.line == line
  {
    var prices := CollectPrices(marketData, line);
    if |prices| == 0 then None
    else
      var sorted := SortPrices(prices);
      var median := Median(sorted);
      ExtremesOfSorted(prices);
      Some(BestOdds(Cents(median), MaxOf(sorted), ImpliedProb(median),
                    |marketData|, line))
  }

  /** extractBestOdds: nothing when the market is absent or empty, else its quote. */
  function BestOddsOf(ev: OddsEvent, key: string, line: Option<real>): (r: Option<BestOdds>)
    ensures r.None? <==> key !in ev.markets || |CollectPrices(ev.markets[key], line)| == 0
    ensures r.Some? ==> r == Quote(ev.markets[key], line)
  {
    if key !in ev.markets || |ev.markets[key]| == 0 then None
    else Quote(ev.markets[key], line)
  }

  /** The price loops, sort and median of extractBestOdds. */
  method QuoteMarket(marketData: seq<BookmakerMarket>, line: Option<real>) returns (r: Option<BestOdds>)
    ensures r == Quote(marketData, line)
  {
    var prices := CollectTargetPrices(marketData, line);
    if |prices| == 0 {
      return None;
    }
    var sorted := SortedCopy(prices);
    var median := sorted[|sorted| / 2];
    r := Some(BestOdds(Cents(median), MaxOf(sorted), ImpliedProb(median),
                       |marketData|, line));
  }

  /** extractBestOdds */
  method ExtractBestOdds(ev: OddsEvent, key: string, line: Option<real>) returns (r: Option<BestOdds>)
    ensures r == BestOddsOf(ev, key, line)
  {
    if key !in ev.markets || |ev.markets[key]| == 0 {
      return None;
    }
    r := QuoteMarket(ev.markets[key], line);
  }

  // ---------------------------------------------------------------------------
  // One market's signal

  datatype ConflictReason = InsufficientData | StatH2HDiverge | MarketLowProb | ModelOddsDiverge

  /** One entry of runFLE's result. */
  datatype Signal = Signal(
    marketId: string, strength: Strength, confidence: int, modelProb: int,
    oddsImpliedProb: Option<int>, oddsDisplay: Option<BestOdds>, explanation: seq<Note>,
    conflictReason: Option<ConflictReason>, noBet: bool, sources: seq<string>)

  /** runFLE's parameters; `tierMarkets` is `tier.markets`. The fixture is not
      read by the engine. */
  datatype Request = Request(
    homeStats: Option<TeamStats>, awayStats: Option<TeamStats>, h2h: Option<Summary>,
    odds: Option<OddsEvent>, markets: seq<string>, tierMarkets: seq<string>)

  /** Both sides have played at least MinMatches. */
  predicate Eligible(req: Request)
  {
    MatchesPlayed(req.homeStats) >= MinMatches && MatchesPlayed(req.awayStats) >= MinMatches
  }

  predicate H2hOk(req: Request)
  {
    MeetingCount(req.h2h) >= MinH2H
  }

  /** The entry for a market when either side lacks season data. */
  function InsufficientSignal(req: Request, id: string): Signal
  {
    Signal(id, Trap, 0, 0, None, None,
           [InsufficientNote(MatchesPlayed(req.homeStats), MatchesPlayed(req.awayStats), MinMatches)],
           Some(InsufficientData), true, ["INSUFFICIENT_DATA"])
  }

  /** The season and head-to-head result for a known market. */
  function StatFor(e: real -> real, req: Request, id: string): (r: StatResult)
    requires Eligible(req) && KnownMarket(id)
    ensures r.prob <= 97
    ensures r.conflict <==>
              H2hOk(req) && Abs(SeasonProb(e, req, id) - H2HRate(req, id)) > StatH2HDelta
  {
    var home := req.homeStats.value;
    var away := req.awayStats.value;
    if id == "btts" then CalcBtts(e, home, away, req.h2h, H2hOk(req))
    else CalcOver(e, LineOf(id), home, away, req.h2h, H2hOk(req))
  }

  /** The season model's own percentage for a known market. */
  function SeasonProb(e: real -> real, req: Request, id: string): int
    requires Eligible(req)
  {
    var home := req.homeStats.value;
    var away := req.awayStats.value;
    if id == "btts" then BttsStatProb(e, home, away) else OverTail(e, ExpGoals(home, away), LineOf(id))
  }

  /** The head-to-head rate a known market is compared with. */
  function H2HRate(req: Request, id: string): int
    requires H2hOk(req)
  {
    if id == "btts" then req.h2h.value.bttsRate else OverRate(LineOf(id), req.h2h.value)
  }

  /** The quote extracted for a market, if odds were supplied. */
  function QuoteFor(req: Request, id: string): Option<BestOdds>
  {
    if req.odds.None? then None
    else match MarketIdToParams(id)
      case None => None
      case Some(p) => BestOddsOf(req.odds.value, p.key, p.line)
  }

  /** The outcome of the odds checks. */
  datatype OddsCheck = OddsCheck(conflict: bool, reason: Option<ConflictReason>, note: Option<Note>)

  /** The two odds conflicts, checked in order: a low implied chance first,
      then a model / market gap. */
  function CheckOdds(modelProb: int, q: Option<BestOdds>): (r: OddsCheck)
    ensures r.conflict <==> r.reason.Some?
    ensures r.note.Some? <==> q.Some?
    ensures r.reason == Some(MarketLowProb) <==> q.Some? && q.value.impliedProb < OddsFloor
    ensures r.reason == Some(ModelOddsDiverge) <==>
              q.Some? && q.value.impliedProb >= OddsFloor && Abs(modelProb - q.value.impliedProb) > ModelOddsDelta
  {
    match q
    case None => OddsCheck(false, None, None)
    case Some(x) =>
      var implied := x.impliedProb;
      if implied < OddsFloor then OddsCheck(true, Some(MarketLowProb), Some(OddsLowNote(implied)))
      else if Abs(modelProb - implied) > ModelOddsDelta then
        OddsCheck(true, Some(ModelOddsDiverge), Some(OddsDivergeNote(modelProb, implied, Abs(modelProb - implied))))
      else OddsCheck(false, None, Some(OddsConsensusNote(x.bookmakerCount, x.medianOdds, implied)))
  }

  /** The confidence: the 70/30 model / market blend when a quote was
      extracted and the odds raised no conflict, capped at 97. */
  function FinalProb(modelProb: int, q: Option<BestOdds>, oddsConflict: bool): (r: int)
    ensures r <= 97
  {
    var blended := if q.Some? && !oddsConflict then OddsBlend(modelProb, q.value.impliedProb) else modelProb;
    Min(97, blended)
  }

  /** `Math.round(modelProb * 0.7 + oddsImpliedProb * 0.3)` */
  function OddsBlend(modelProb: int, implied: int): int
  {
    Round(modelProb as real * 0.7 + implied as real * 0.3)
  }

  /** The verdict on a market from its season / head-to-head result, its
      quote and the odds checks. */
  function VerdictOf(id: string, stat: StatResult, q: Option<BestOdds>, odds: OddsCheck,
                     sources: seq<string>): Signal
  {
    var isConflict := stat.conflict || odds.conflict;
    var reason := if stat.conflict then Some(StatH2HDiverge) else odds.reason;
    var finalProb := FinalProb(stat.prob, q, odds.conflict);
    var strength := if isConflict then Trap else ProbabilityToStrength(finalProb);
    var notes := [stat.note] + (if odds.note.Some? then [odds.note.value] else [])
                 + (if isConflict && reason == Some(StatH2HDiverge) then [StatH2HConflictNote] else []);
    Signal(id, strength, finalProb, stat.prob,
           if q.Some? then Some(q.value.impliedProb) else None, q, notes,
           if isConflict then reason else None, isConflict || strength == Trap, sources)
  }

  /** The signal of a known market for an eligible request. */
  function Scored(e: real -> real, req: Request, id: string): Signal
    requires Eligible(req) && KnownMarket(id)
  {
    var stat := StatFor(e, req, id);
    var q := QuoteFor(req, id);
    VerdictOf(id, stat, q, CheckOdds(stat.prob, q),
              [OrElse(req.homeStats.value.source, "FOOTBALL_DATA_ORG")] + (if q.Some? then ["ODDS_API"] else []))
  }

  /** The entry runFLE pushes for one requested market, if any. */
  function SignalFor(e: real -> real, req: Request, id: string): (r: Option<Signal>)
    ensures r.Some? <==> id in req.tierMarkets && (!Eligible(req) || KnownMarket(id))
    ensures r.Some? ==> r.value.marketId == id
  {
    if id !in req.tierMarkets then None
    else if !Eligible(req) then Some(InsufficientSignal(req, id))
    else if !KnownMarket(id) then None
    else Some(Scored(e, req, id))
  }

  /** The entries for a list of requested markets, in order. */
  function Signals(e: real -> real, req: Request, ms: seq<string>): seq<Signal>
  {
    if |ms| == 0 then []
    else
      var last := SignalFor(e, req, ms[|ms| - 1]);
      Signals(e, req, ms[..|ms| - 1]) + (if last.Some? then [last.value] else [])
  }

  // ---------------------------------------------------------------------------
  // runFLE

  /** Layer 2 of the loop body: extract the quote and run the odds checks. */
  method OddsLayer(req: Request, marketId: string, modelProb: int, sources0: seq<string>)
    returns (oddsImpliedProb: Option<int>, oddsDisplay: Option<BestOdds>, check: OddsCheck, sources: seq<string>)
    ensures oddsDisplay == QuoteFor(req, marketId)
    ensures oddsImpliedProb == if oddsDisplay.Some? then Some(oddsDisplay.value.impliedProb) else None
    ensures check == CheckOdds(modelProb, oddsDisplay)
    ensures sources == sources0 + (if oddsDisplay.Some? then ["ODDS_API"] else [])
  {
    oddsImpliedProb := None;
    oddsDisplay := None;
    check := OddsCheck(false, None, None);
    sources := sources0;
    if req.odds.Some? {
      var oddsParams := MarketIdToParams(marketId);
      if oddsParams.Some? {
        var extracted := ExtractBestOdds(req.odds.value, oddsParams.value.key, oddsParams.value.line);
        if extracted.Some? {
          oddsImpliedProb := Some(extracted.value.impliedProb);
          oddsDisplay := extracted;
          sources := sources + ["ODDS_API"];
          check := CheckQuote(modelProb, extracted.value);
        }
      }
    }
  }

  /** The two conflict tests on an extracted quote. */
  method CheckQuote(modelProb: int, extracted: BestOdds) returns (check: OddsCheck)
    ensures check == CheckOdds(modelProb, Some(extracted))
  {
    var implied := extracted.impliedProb;
    if implied < OddsFloor {
      check := OddsCheck(true, Some(MarketLowProb), Some(OddsLowNote(implied)));
    } else if Abs(modelProb - implied) > ModelOddsDelta {
      check := OddsCheck(true, Some(ModelOddsDiverge), Some(OddsDivergeNote(modelProb, implied, Abs(modelProb - implied))));
    } else {
      check := OddsCheck(false, None, Some(OddsConsensusNote(extracted.bookmakerCount, extracted.medianOdds, implied)));
    }
  }

  /** The final verdict of the loop body, from the two layers' results. */
  method Verdict(hasOdds: bool, marketId: string, stat: StatResult, oddsImpliedProb: Option<int>,
                 oddsDisplay: Option<BestOdds>, odds: OddsCheck, sources: seq<string>) returns (signal: Signal)
    requires oddsImpliedProb == if oddsDisplay.Some? then Some(oddsDisplay.value.impliedProb) else None
    requires oddsDisplay.Some? ==> hasOdds
    ensures signal == VerdictOf(marketId, stat, oddsDisplay, odds, sources)
  {
    var modelProb := stat.prob;
    var isConflict := stat.conflict || odds.conflict;
    var conflictReason := if stat.conflict then Some(StatH2HDiverge) else odds.reason;
    var finalProb := modelProb;
    if hasOdds && oddsImpliedProb.Some? && !odds.conflict {
      finalProb := OddsBlend(modelProb, oddsImpliedProb.value);
    }
    finalProb := Min(97, finalProb);
    var strength := if isConflict then Trap else ProbabilityToStrength(finalProb);
    var notes := [stat.note] + (if odds.note.Some? then [odds.note.value] else [])
                 + (if isConflict && conflictReason == Some(StatH2HDiverge) then [StatH2HConflictNote] else []);
    signal := Signal(marketId, strength, finalProb, modelProb, oddsImpliedProb, oddsDisplay, notes,
                     if isConflict then conflictReason else None, isConflict || strength == Trap, sources);
  }

  /** The loop body for one market id. */
  method Analyse(e: real -> real, req: Request, marketId: string) returns (r: Option<Signal>)
    ensures r == SignalFor(e, req, marketId)
  {
    var homeOk := MatchesPlayed(req.homeStats) >= MinMatches;
    var awayOk := MatchesPlayed(req.awayStats) >= MinMatches;
    var h2hOk := MeetingCount(req.h2h) >= MinH2H;
    var hasOdds := req.odds.Some?;
    if marketId !in req.tierMarkets {
      return None;
    }
    if !homeOk || !awayOk {
      return Some(InsufficientSignal(req, marketId));
    }
    var home := req.homeStats.value;
    var away := req.awayStats.value;
    var stat: StatResult;
    if marketId == "o15" {
      stat := CalcOver(e, 1.5, home, away, req.h2h, h2hOk);
    } else if marketId == "o25" {
      stat := CalcOver(e, 2.5, home, away, req.h2h, h2hOk);
    } else if marketId == "o35" {
      stat := CalcOver(e, 3.5, home, away, req.h2h, h2hOk);
    } else if marketId == "btts" {
      stat := CalcBtts(e, home, away, req.h2h, h2hOk);
    } else {
      return None;
    }
    assert stat == StatFor(e, req, marketId);
    var oddsImpliedProb, oddsDisplay, odds, sources :=
      OddsLayer(req, marketId, stat.prob, [OrElse(home.source, "FOOTBALL_DATA_ORG")]);
    var signal := Verdict(hasOdds, marketId, stat, oddsImpliedProb, oddsDisplay, odds, sources);
    r := Some(signal);
  }

  /** runFLE: one pass over the requested markets, pushing each entry. */
  method RunFle(e: real -> real, req: Request) returns (results: seq<Signal>)
    ensures results == Signals(e, req, req.markets)
  {
    results := [];
    for i := 0 to |req.markets|
      invariant results == Signals(e, req, req.markets[..i])
    {
      assert req.markets[..i + 1][..i] == req.markets[..i];
      var entry := Analyse(e, req, req.markets[i]);
      if entry.Some? {
        results := results + [entry.value];
      }
    }
    assert req.markets[..|req.markets|] == req.markets;
  }
}
