/** What runFLE (v0.3) promises about its result list and each entry. */
module FleProperties {
  import opened Common
  import opened Poisson
  import opened Prices
  import opened HeadToHead
  import opened EngineTypes
  import opened Fle

  /** A requested market id yields an entry: it is in the tier, and either
      the data is insufficient or the id is one the engine knows. */
  predicate Survives(req: Request, id: string)
  {
    id in req.tierMarkets && (!Eligible(req) || KnownMarket(id))
  }

  /** The requested ids that yield an entry, in request order. */
  function Surviving(req: Request, ms: seq<string>): (r: seq<string>)
    ensures forall i :: 0 <= i < |r| ==> Survives(req, r[i])
  {
    if |ms| == 0 then []
    else Surviving(req, ms[..|ms| - 1]) + (if Survives(req, ms[|ms| - 1]) then [ms[|ms| - 1]] else [])
  }

  lemma {:induction false} SurvivingMembers(req: Request, ms: seq<string>, id: string)
    ensures id in Surviving(req, ms) <==> id in ms && Survives(req, id)
  {
    if |ms| > 0 {
      SurvivingMembers(req, ms[..|ms| - 1], id);
      assert ms == ms[..|ms| - 1] + [ms[|ms| - 1]];
    }
  }

  /** runFLE yields exactly one entry per surviving id, in request order,
      and each is that id's entry. */
  lemma {:induction false} SignalsAreSurvivors(e: real -> real, req: Request, ms: seq<string>)
    ensures |Signals(e, req, ms)| == |Surviving(req, ms)|
    ensures forall i :: 0 <= i < |Surviving(req, ms)| ==>
              SignalFor(e, req, Surviving(req, ms)[i]) == Some(Signals(e, req, ms)[i])
  {
    if |ms| > 0 {
      SignalsAreSurvivors(e, req, ms[..|ms| - 1]);
    }
  }

  /** The shape every entry has: a conflict forces TRAP, noBet is exactly
      "a conflict or TRAP", the confidence is capped at 97, and without a
      conflict TRAP means a confidence below 60. */
  predicate Coherent(s: Signal)
  {
    && (s.conflictReason.Some? ==> s.strength == Trap)
    && (s.noBet <==> s.conflictReason.Some? || s.strength == Trap)
    && s.confidence <= 97
    && (s.conflictReason.None? ==> (s.strength == Trap <==> s.confidence < 60))
  }

  lemma SignalCoherent(e: real -> real, req: Request, id: string)
    ensures SignalFor(e, req, id).Some? ==> Coherent(SignalFor(e, req, id).value)
  {
    if SignalFor(e, req, id).Some? && Eligible(req) {
      StrengthBoundaries(SignalFor(e, req, id).value.confidence);
    }
  }

  /** Every entry of runFLE's result is coherent. */
  lemma AllSignalsCoherent(e: real -> real, req: Request)
    ensures forall i :: 0 <= i < |Signals(e, req, req.markets)| ==> Coherent(Signals(e, req, req.markets)[i])
  {
    var ms := req.markets;
    SignalsAreSurvivors(e, req, ms);
    forall i | 0 <= i < |Signals(e, req, ms)|
      ensures Coherent(Signals(e, req, ms)[i])
    {
      SignalCoherent(e, req, Surviving(req, ms)[i]);
    }
  }

  /** With too few matches on either side, every entry is the insufficient
      entry: TRAP, confidence and model probability 0, no bet,
      `insufficient_data`; and every id in the tier yields one. */
  lemma InsufficientEverywhere(e: real -> real, req: Request)
    requires !Eligible(req)
    ensures forall i :: 0 <= i < |Signals(e, req, req.markets)| ==>
              var s := Signals(e, req, req.markets)[i];
              && s == InsufficientSignal(req, s.marketId)
              && s.strength == Trap && s.confidence == 0 && s.modelProb == 0 && s.noBet
              && s.conflictReason == Some(InsufficientData)
    ensures forall id :: id in Surviving(req, req.markets) <==> id in req.markets && id in req.tierMarkets
  {
    var ms := req.markets;
    SignalsAreSurvivors(e, req, ms);
    forall id
      ensures id in Surviving(req, ms) <==> id in ms && id in req.tierMarkets
    {
      SurvivingMembers(req, ms, id);
    }
  }

  /** The head-to-head conflict fires exactly when there are at least three
      meetings and the season model and the head-to-head rate differ by more
      than 18; the reported reason is then `stat_h2h_diverge`. */
  lemma StatH2HConflictIff(e: real -> real, req: Request, id: string)
    requires Eligible(req) && KnownMarket(id) && id in req.tierMarkets
    ensures SignalFor(e, req, id).value.conflictReason == Some(StatH2HDiverge) <==>
              H2hOk(req) && Abs(SeasonProb(e, req, id) - H2HRate(req, id)) > StatH2HDelta
  {
  }

  /** The model probability: the 60/40 blend with at least three meetings,
      the season figure otherwise, capped at 97. */
  lemma ModelProbRule(e: real -> real, req: Request, id: string)
    requires Eligible(req) && KnownMarket(id) && id in req.tierMarkets
    ensures SignalFor(e, req, id).value.modelProb ==
              Min(97, if H2hOk(req) then Blend(SeasonProb(e, req, id), H2HRate(req, id))
                      else SeasonProb(e, req, id))
  {
  }

  /** The odds conflicts come in order: a low implied chance first, then a
      model / market gap, and neither is reported over a head-to-head
      conflict. */
  lemma OddsConflictOrder(e: real -> real, req: Request, id: string)
    requires Eligible(req) && KnownMarket(id) && id in req.tierMarkets
    ensures var s := SignalFor(e, req, id).value;
            var q := QuoteFor(req, id);
            var statConflict := StatFor(e, req, id).conflict;
            && (s.conflictReason == Some(MarketLowProb) <==>
                  !statConflict && q.Some? && q.value.impliedProb < OddsFloor)
            && (s.conflictReason == Some(ModelOddsDiverge) <==>
                  !statConflict && q.Some? && q.value.impliedProb >= OddsFloor
                  && Abs(s.modelProb - q.value.impliedProb) > ModelOddsDelta)
  {
  }

  /** The confidence is the 70/30 model / market blend exactly when a quote
      was extracted and the odds raised no conflict (a head-to-head conflict
      does not prevent it), else the model probability; capped at 97. */
  lemma ConfidenceRule(e: real -> real, req: Request, id: string)
    requires Eligible(req) && KnownMarket(id) && id in req.tierMarkets
    ensures var s := SignalFor(e, req, id).value;
            var q := QuoteFor(req, id);
            var agreed := q.Some? && !CheckOdds(s.modelProb, q).conflict;
            && s.oddsDisplay == q
            && s.confidence == Min(97, if agreed then OddsBlend(s.modelProb, q.value.impliedProb) else s.modelProb)
            && (q.None? ==> s.confidence == s.modelProb)
  {
  }

  /** The inputs the confidence bounds need: Math.exp's facts, non-negative
      averages, and head-to-head rates that are percentages. */
  ghost predicate SaneInputs(e: real -> real, req: Request)
  {
    && IsNegExp(e) && MassAtMostOne(e)
    && (req.homeStats.Some? ==> 0.0 <= req.homeStats.value.goalsForAvg && 0.0 <= req.homeStats.value.goalsAgainstAvg)
    && (req.awayStats.Some? ==> 0.0 <= req.awayStats.value.goalsForAvg && 0.0 <= req.awayStats.value.goalsAgainstAvg)
    && (req.h2h.Some? ==> RatesOrdered(req.h2h.value))
  }

  lemma SeasonProbBounds(e: real -> real, req: Request, id: string)
    requires SaneInputs(e, req) && Eligible(req)
    ensures 0 <= SeasonProb(e, req, id) <= 100
  {
    var home := req.homeStats.value;
    var away := req.awayStats.value;
    if id == "btts" {
      BttsStatProbBounds(e, home, away);
    } else {
      OverTailAtMost100(e, ExpGoals(home, away), LineOf(id));
      OverTailNonnegative(e, ExpGoals(home, away), LineOf(id));
    }
  }

  lemma OddsBlendBounds(m: int, i: int)
    requires 0 <= m <= 100 && 0 <= i <= 100
    ensures 0 <= OddsBlend(m, i) <= 100
  {
    RoundMonotone(0.0, m as real * 0.7 + i as real * 0.3);
    RoundMonotone(m as real * 0.7 + i as real * 0.3, 100.0);
    RoundOfInt(0);
    RoundOfInt(100);
  }

  /** For sane inputs the model probability and the confidence lie in [0, 97]. */
  lemma ConfidenceBounds(e: real -> real, req: Request, id: string)
    requires SaneInputs(e, req) && Eligible(req) && KnownMarket(id) && id in req.tierMarkets
    ensures 0 <= SignalFor(e, req, id).value.modelProb <= 97
    ensures 0 <= SignalFor(e, req, id).value.confidence <= 97
  {
    SeasonProbBounds(e, req, id);
    if H2hOk(req) {
      BlendBetween(SeasonProb(e, req, id), H2HRate(req, id));
    }
    var s := SignalFor(e, req, id).value;
    var q := QuoteFor(req, id);
    if q.Some? {
      OddsBlendBounds(s.modelProb, q.value.impliedProb);
    }
  }
}
