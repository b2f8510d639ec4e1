/** v0.3 refines v0.2: with no market quote, the current engine returns the
    same entries, strengths, confidences and noBet flags as the older one. */
module Refinement {
  import opened Common
  import opened HeadToHead
  import opened EngineTypes
  import Poisson
  import Fle
  import FleV2
  import OddsKeyMap

  /** The v0.2 request carrying the same statistics and market lists. */
  function ToV2(req: Fle.Request): FleV2.RequestV2
  {
    FleV2.RequestV2(req.homeStats, req.awayStats, req.h2h, req.markets, req.tierMarkets)
  }

  /** Both versions use the same step thresholds. */
  lemma {:induction false} StrengthAgrees(p: int)
    ensures Fle.ProbabilityToStrength(p) == FleV2.ProbabilityToStrength(p)
  {
    var a := Fle.ProbabilityToStrength(p);
    var b := FleV2.ProbabilityToStrength(p);
    assert Rank(a) == Rank(b);
  }

  /** calcOver and calcBTTS agree on the probability and the conflict flag
      (v0.3 rounds the blend before the choice, v0.2 after it). */
  lemma StatAgrees(e: real -> real, line: real, home: TeamStats, away: TeamStats,
                   h2h: Option<Summary>, h2hOk: bool)
    requires h2hOk ==> h2h.Some?
    ensures Fle.CalcOver(e, line, home, away, h2h, h2hOk).prob == FleV2.CalcOver(e, line, home, away, h2h, h2hOk).prob
    ensures Fle.CalcOver(e, line, home, away, h2h, h2hOk).conflict == FleV2.CalcOver(e, line, home, away, h2h, h2hOk).conflict
    ensures Fle.CalcBtts(e, home, away, h2h, h2hOk).prob == FleV2.CalcBtts(e, home, away, h2h, h2hOk).prob
    ensures Fle.CalcBtts(e, home, away, h2h, h2hOk).conflict == FleV2.CalcBtts(e, home, away, h2h, h2hOk).conflict
  {
    var over := Poisson.OverTail(e, ExpGoals(home, away), line);
    FleV2.BlendedRounding(over, if h2hOk then OverRate(line, h2h.value) else over, h2hOk);
    var btts := Fle.BttsStatProb(e, home, away);
    assert FleV2.BttsStatProb(e, home, away) == btts;
    FleV2.BlendedRounding(btts, if h2hOk then h2h.value.bttsRate else btts, h2hOk);
  }

  /** The fields the two versions share. */
  predicate Agree(s: Fle.Signal, t: FleV2.SignalV2)
  {
    s.marketId == t.marketId && s.strength == t.strength && s.confidence == t.confidence && s.noBet == t.noBet
  }

  /** One market: when no quote is extracted, both versions yield an entry
      for the same ids, and the entries agree. */
  lemma SignalAgrees(e: real -> real, req: Fle.Request, id: string)
    requires Fle.QuoteFor(req, id).None?
    ensures Fle.SignalFor(e, req, id).Some? <==> FleV2.SignalFor(e, ToV2(req), id).Some?
    ensures Fle.SignalFor(e, req, id).Some? ==>
              Agree(Fle.SignalFor(e, req, id).value, FleV2.SignalFor(e, ToV2(req), id).value)
  {
    if id in req.tierMarkets && Fle.Eligible(req) && KnownMarket(id) {
      var home := req.homeStats.value;
      var away := req.awayStats.value;
      StatAgrees(e, LineOf(id), home, away, req.h2h, Fle.H2hOk(req));
      var p := Fle.StatFor(e, req, id).prob;
      assert p == FleV2.StatFor(e, ToV2(req), id).prob;
      assert Fle.FinalProb(p, None, false) == p;
      StrengthAgrees(p);
    }
  }

  /** The whole result: a request without odds gives lists of the same length
      whose entries agree one by one. */
  lemma {:induction false} SignalsAgree(e: real -> real, req: Fle.Request, ms: seq<string>)
    requires req.odds.None?
    ensures |Fle.Signals(e, req, ms)| == |FleV2.Signals(e, ToV2(req), ms)|
    ensures forall i :: 0 <= i < |Fle.Signals(e, req, ms)| ==>
              Agree(Fle.Signals(e, req, ms)[i], FleV2.Signals(e, ToV2(req), ms)[i])
  {
    if |ms| > 0 {
      SignalsAgree(e, req, ms[..|ms| - 1]);
      SignalAgrees(e, req, ms[|ms| - 1]);
    }
  }

  /** runFLE without odds: v0.3 and v0.2 agree on every entry. */
  lemma RunFleAgrees(e: real -> real, req: Fle.Request)
    requires req.odds.None?
    ensures |Fle.Signals(e, req, req.markets)| == |FleV2.Signals(e, ToV2(req), ToV2(req).markets)|
    ensures forall i :: 0 <= i < |Fle.Signals(e, req, req.markets)| ==>
              Agree(Fle.Signals(e, req, req.markets)[i], FleV2.Signals(e, ToV2(req), ToV2(req).markets)[i])
  {
    SignalsAgree(e, req, req.markets);
  }

  /** The engine's market-to-feed mapping is the one the odds key map
      module exports: the two tables agree on every id. */
  lemma MarketTablesAgree(id: string)
    ensures Fle.MarketIdToParams(id) == OddsKeyMap.MarketIdToOddsParams(id)
  {
  }
}
