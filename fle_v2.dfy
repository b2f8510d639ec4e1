/** predictedge-v3/src/engines/fle.js, FLE v0.2: the season Poisson model and
    the head-to-head layer, without a market-odds layer.
    `e` stands for x ↦ Math.exp(-x). */
module FleV2 {
  import opened Common
  import opened Poisson
  import opened HeadToHead
  import opened EngineTypes

  const MinMatches := 5
  const MinH2H := 3
  /** A season / head-to-head gap above this is a conflict. */
  const ConflictDelta := 18

  /** probabilityToStrength (v0.2). */
  function ProbabilityToStrength(p: int): (s: Strength)
    ensures Rank(s) == Reached(p)
  {
    if p >= 90 then Banker
    else if p >= 85 then Strong
    else if p >= 80 then Safe
    else if p >= 70 then Moderate
    else if p >= 60 then Risky
    else Trap
  }

  /** TRAP is exactly below 60. */
  lemma TrapBelow60(p: int)
    ensures ProbabilityToStrength(p) == Trap <==> p < 60
  {
  }

  /** `h2hOk ? statProb * 0.6 + h2hProb * 0.4 : statProb`, unrounded. */
  function Blended(statProb: int, h2hProb: int, h2hOk: bool): real
  {
    if h2hOk then statProb as real * 0.6 + h2hProb as real * 0.4 else statProb as real
  }

  /** calcOver (v0.2): the blend is rounded after the choice. */
  function CalcOver(e: real -> real, line: real, home: TeamStats, away: TeamStats,
                    h2h: Option<Summary>, h2hOk: bool): (r: StatResult)
    requires h2hOk ==> h2h.Some?
    ensures r.prob <= 97
    ensures r.conflict <==>
              h2hOk && Abs(OverTail(e, ExpGoals(home, away), line) - OverRate(line, h2h.value)) > ConflictDelta
  {
    var expGoals := ExpGoals(home, away);
    var statProb := OverTail(e, expGoals, line);
    var h2hProb := if h2hOk then OverRate(line, h2h.value) else statProb;
    var conflict := h2hOk && Abs(statProb - h2hProb) > ConflictDelta;
    var note := SeasonOverNote(expGoals, statProb, line,
                               if h2hOk then Some(H2HNote(h2h.value.totalMatches, h2hProb)) else None);
    StatResult(Min(97, Round(Blended(statProb, h2hProb, h2hOk))), note, conflict)
  }

  /** The season BTTS estimate: round(P(home scores) · P(away scores) · 100). */
  function BttsStatProb(e: real -> real, home: TeamStats, away: TeamStats): int
  {
    Round((1.0 - Pmf(e, home.goalsForAvg, 0)) * (1.0 - Pmf(e, away.goalsForAvg, 0)) * 100.0)
  }

  /** calcBTTS (v0.2). */
  function CalcBtts(e: real -> real, home: TeamStats, away: TeamStats,
                    h2h: Option<Summary>, h2hOk: bool): (r: StatResult)
    requires h2hOk ==> h2h.Some?
    ensures r.prob <= 97
    ensures r.conflict <==> h2hOk && Abs(BttsStatProb(e, home, away) - h2h.value.bttsRate) > ConflictDelta
  {
    var statProb := BttsStatProb(e, home, away);
    var h2hProb := if h2hOk then h2h.value.bttsRate else statProb;
    var conflict := h2hOk && Abs(statProb - h2hProb) > ConflictDelta;
    var note := SeasonBttsNote(1.0 - Pmf(e, home.goalsForAvg, 0), 1.0 - Pmf(e, away.goalsForAvg, 0), statProb,
                               if h2hOk then Some(H2HNote(h2h.value.totalMatches, h2hProb)) else None);
    StatResult(Min(97, Round(Blended(statProb, h2hProb, h2hOk))), note, conflict)
  }

  /** Without head-to-head data the season figure passes through unchanged
      (up to the cap); with it, the probability is the rounded 60/40 blend. */
  lemma BlendedRounding(statProb: int, h2hProb: int, h2hOk: bool)
    ensures Round(Blended(statProb, h2hProb, h2hOk)) == if h2hOk then Blend(statProb, h2hProb) else statProb
  {
    if !h2hOk {
      RoundOfInt(statProb);
    }
  }

  // ---------------------------------------------------------------------------
  // runFLE (v0.2)

  /** One entry of runFLE's result. */
  datatype SignalV2 = SignalV2(
    marketId: string, strength: Strength, confidence: int, explanation: seq<Note>,
    noBet: bool, source: string)

  /** runFLE's parameters; `tierMarkets` is `tier.markets`. */
  datatype RequestV2 = RequestV2(
    homeStats: Option<TeamStats>, awayStats: Option<TeamStats>, h2h: Option<Summary>,
    markets: seq<string>, tierMarkets: seq<string>)

  predicate Eligible(req: RequestV2)
  {
    MatchesPlayed(req.homeStats) >= MinMatches && MatchesPlayed(req.awayStats) >= MinMatches
  }

  predicate H2hOk(req: RequestV2)
  {
    MeetingCount(req.h2h) >= MinH2H
  }

  /** `homeTeamStats?.source ?? fallback` */
  function SourceOr(home: Option<TeamStats>, fallback: string): string
  {
    if home.Some? then OrElse(home.value.source, fallback) else fallback
  }

  /** The entry for a market when either side lacks season data. */
  function InsufficientSignal(req: RequestV2, id: string): SignalV2
  {
    SignalV2(id, Trap, 0,
             [InsufficientNote(MatchesPlayed(req.homeStats), MatchesPlayed(req.awayStats), MinMatches)],
             true, SourceOr(req.homeStats, "UNKNOWN"))
  }

  /** The season and head-to-head result for a known market. */
  function StatFor(e: real -> real, req: RequestV2, id: string): (r: StatResult)
    requires Eligible(req) && KnownMarket(id)
    ensures r.prob <= 97
  {
    var home := req.homeStats.value;
    var away := req.awayStats.value;
    if id == "btts" then CalcBtts(e, home, away, req.h2h, H2hOk(req))
    else CalcOver(e, LineOf(id), home, away, req.h2h, H2hOk(req))
  }

  /** The entry of a known market: a conflict forces TRAP and puts the
      conflict note in front of the explanation. */
  function VerdictOf(id: string, stat: StatResult, source: string): SignalV2
  {
    var strength := if stat.conflict then Trap else ProbabilityToStrength(stat.prob);
    SignalV2(id, strength, stat.prob,
             (if stat.conflict then [StatH2HConflictNote] else []) + [stat.note],
             stat.conflict || strength == Trap, source)
  }

  /** The entry runFLE pushes for one requested market, if any. */
  function SignalFor(e: real -> real, req: RequestV2, id: string): (r: Option<SignalV2>)
    ensures r.Some? <==> id in req.tierMarkets && (!Eligible(req) || KnownMarket(id))
    ensures r.Some? ==> r.value.marketId == id
  {
    if id !in req.tierMarkets then None
    else if !Eligible(req) then Some(InsufficientSignal(req, id))
    else if !KnownMarket(id) then None
    else Some(VerdictOf(id, StatFor(e, req, id), SourceOr(req.homeStats, "FOOTBALL_DATA_ORG")))
  }

  /** The entries for a list of requested markets, in order. */
  function Signals(e: real -> real, req: RequestV2, ms: seq<string>): seq<SignalV2>
  {
    if |ms| == 0 then []
    else
      var last := SignalFor(e, req, ms[|ms| - 1]);
      Signals(e, req, ms[..|ms| - 1]) + (if last.Some? then [last.value] else [])
  }

  /** The loop body for one market id. */
  method Analyse(e: real -> real, req: RequestV2, marketId: string) returns (r: Option<SignalV2>)
    ensures r == SignalFor(e, req, marketId)
  {
    var homeOk := MatchesPlayed(req.homeStats) >= MinMatches;
    var awayOk := MatchesPlayed(req.awayStats) >= MinMatches;
    var h2hOk := MeetingCount(req.h2h) >= MinH2H;
    if marketId !in req.tierMarkets {
      return None;
    }
    if !homeOk || !awayOk {
      return Some(InsufficientSignal(req, marketId));
    }
    var home := req.homeStats.value;
    var away := req.awayStats.value;
    var stat: StatResult;
    if marketId == "o15" {
      stat := CalcOver(e, 1.5, home, away, req.h2h, h2hOk);
    } else if marketId == "o25" {
      stat := CalcOver(e, 2.5, home, away, req.h2h, h2hOk);
    } else if marketId == "o35" {
      stat := CalcOver(e, 3.5, home, away, req.h2h, h2hOk);
    } else if marketId == "btts" {
      stat := CalcBtts(e, home, away, req.h2h, h2hOk);
    } else {
      return None;
    }
    var finalStrength := if stat.conflict then Trap else ProbabilityToStrength(stat.prob);
    var conflictNote := if stat.conflict then [StatH2HConflictNote] else [];
    r := Some(SignalV2(marketId, finalStrength, stat.prob, conflictNote + [stat.note],
                       stat.conflict || finalStrength == Trap, SourceOr(req.homeStats, "FOOTBALL_DATA_ORG")));
  }

  /** runFLE: one pass over the requested markets, pushing each entry. */
  method RunFle(e: real -> real, req: RequestV2) returns (results: seq<SignalV2>)
    ensures results == Signals(e, req, req.markets)
  {
    results := [];
    for i := 0 to |req.markets|
      invariant results == Signals(e, req, req.markets[..i])
    {
      assert req.markets[..i + 1][..i] == req.markets[..i];
      var entry := Analyse(e, req, req.markets[i]);
      if entry.Some? {
        results := results + [entry.value];
      }
    }
    assert req.markets[..|req.markets|] == req.markets;
  }

  // ---------------------------------------------------------------------------
  // Properties

  /** A requested market id yields an entry. */
  predicate Survives(req: RequestV2, id: string)
  {
    id in req.tierMarkets && (!Eligible(req) || KnownMarket(id))
  }

  /** The requested ids that yield an entry, in request order. */
  function Surviving(req: RequestV2, ms: seq<string>): (r: seq<string>)
    ensures forall i :: 0 <= i < |r| ==> Survives(req, r[i])
  {
    if |ms| == 0 then []
    else Surviving(req, ms[..|ms| - 1]) + (if Survives(req, ms[|ms| - 1]) then [ms[|ms| - 1]] else [])
  }

  lemma {:induction false} SurvivingMembers(req: RequestV2, ms: seq<string>, id: string)
    ensures id in Surviving(req, ms) <==> id in ms && Survives(req, id)
  {
    if |ms| > 0 {
      SurvivingMembers(req, ms[..|ms| - 1], id);
      assert ms == ms[..|ms| - 1] + [ms[|ms| - 1]];
    }
  }

  /** One entry per surviving id, in request order. */
  lemma {:induction false} SignalsAreSurvivors(e: real -> real, req: RequestV2, ms: seq<string>)
    ensures |Signals(e, req, ms)| == |Surviving(req, ms)|
    ensures forall i :: 0 <= i < |Surviving(req, ms)| ==>
              SignalFor(e, req, Surviving(req, ms)[i]) == Some(Signals(e, req, ms)[i])
  {
    if |ms| > 0 {
      SignalsAreSurvivors(e, req, ms[..|ms| - 1]);
    }
  }

  /** The shape of every entry: a conflict (its note leads the explanation)
      forces TRAP, noBet is exactly "conflict or TRAP", and the confidence is
      at most 97. */
  predicate Coherent(s: SignalV2)
  {
    && |s.explanation| > 0
    && (s.explanation[0] == StatH2HConflictNote ==> s.strength == Trap && s.noBet)
    && (s.noBet <==> s.explanation[0] == StatH2HConflictNote || s.strength == Trap)
    && s.confidence <= 97
  }

  lemma SignalCoherent(e: real -> real, req: RequestV2, id: string)
    ensures SignalFor(e, req, id).Some? ==> Coherent(SignalFor(e, req, id).value)
  {
  }

  lemma AllSignalsCoherent(e: real -> real, req: RequestV2)
    ensures forall i :: 0 <= i < |Signals(e, req, req.markets)| ==> Coherent(Signals(e, req, req.markets)[i])
  {
    var ms := req.markets;
    SignalsAreSurvivors(e, req, ms);
    forall i | 0 <= i < |Signals(e, req, ms)|
      ensures Coherent(Signals(e, req, ms)[i])
    {
      SignalCoherent(e, req, Surviving(req, ms)[i]);
    }
  }

  /** With too few matches on either side every entry is TRAP, confidence 0,
      no bet, explained by both counts; and every id in the tier yields one. */
  lemma InsufficientEverywhere(e: real -> real, req: RequestV2)
    requires !Eligible(req)
    ensures forall i :: 0 <= i < |Signals(e, req, req.markets)| ==>
              var s := Signals(e, req, req.markets)[i];
              && s.strength == Trap && s.confidence == 0 && s.noBet
              && s.explanation == [InsufficientNote(MatchesPlayed(req.homeStats), MatchesPlayed(req.awayStats), 5)]
              && s.source == SourceOr(req.homeStats, "UNKNOWN")
    ensures forall id :: id in Surviving(req, req.markets) <==> id in req.markets && id in req.tierMarkets
  {
    var ms := req.markets;
    SignalsAreSurvivors(e, req, ms);
    forall id
      ensures id in Surviving(req, ms) <==> id in ms && id in req.tierMarkets
    {
      SurvivingMembers(req, ms, id);
    }
  }

  /** A known market's entry: the conflict note appears exactly when there
      are at least three meetings and the season figure and the head-to-head
      rate differ by more than 18; the confidence is the capped blend. */
  lemma ConflictAndBlend(e: real -> real, req: RequestV2, id: string)
    requires Eligible(req) && KnownMarket(id) && id in req.tierMarkets
    ensures var s := SignalFor(e, req, id).value;
            var home := req.homeStats.value;
            var away := req.awayStats.value;
            var season := if id == "btts" then BttsStatProb(e, home, away)
                          else OverTail(e, ExpGoals(home, away), LineOf(id));
            var rate := if !H2hOk(req) then season
                        else if id == "btts" then req.h2h.value.bttsRate
                        else OverRate(LineOf(id), req.h2h.value);
            && (s.explanation[0] == StatH2HConflictNote <==> H2hOk(req) && Abs(season - rate) > ConflictDelta)
            && s.confidence == Min(97, if H2hOk(req) then Blend(season, rate) else season)
  {
    var home := req.homeStats.value;
    var away := req.awayStats.value;
    var season := if id == "btts" then BttsStatProb(e, home, away)
                  else OverTail(e, ExpGoals(home, away), LineOf(id));
    var rate := if !H2hOk(req) then season
                else if id == "btts" then req.h2h.value.bttsRate
                else OverRate(LineOf(id), req.h2h.value);
    BlendedRounding(season, rate, H2hOk(req));
  }
}
