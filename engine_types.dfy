/** The vocabulary both engine versions share: the strength tiers, the team
    statistics the standings endpoint supplies, and the fragments an
    explanation is made of. */
module EngineTypes {
  import opened Common
  import opened HeadToHead

  /** 'BANKER' … 'TRAP' */
  datatype Strength = Banker | Strong | Safe | Moderate | Risky | Trap

  /** The order of the tiers, TRAP lowest. */
  function Rank(s: Strength): nat
  {
    match s
    case Trap => 0
    case Risky => 1
    case Moderate => 2
    case Safe => 3
    case Strong => 4
    case Banker => 5
  }

  /** How many of the tier thresholds 60, 70, 80, 85, 90 the percentage p reaches. */
  function Reached(p: int): nat
  {
    (if p >= 60 then 1 else 0) + (if p >= 70 then 1 else 0) + (if p >= 80 then 1 else 0)
    + (if p >= 85 then 1 else 0) + (if p >= 90 then 1 else 0)
  }

  /** A team's season figures; `matchesPlayed` and `source` may be absent. */
  datatype TeamStats = TeamStats(
    matchesPlayed: Option<int>, goalsForAvg: real, goalsAgainstAvg: real, source: Option<string>)

  /** `stats?.matchesPlayed ?? 0` */
  function MatchesPlayed(t: Option<TeamStats>): int
  {
    if t.Some? then OrElse(t.value.matchesPlayed, 0) else 0
  }

  /** `h2hSummary?.totalMatches ?? 0` */
  function MeetingCount(h: Option<Summary>): int
  {
    if h.Some? then h.value.totalMatches else 0
  }

  /** The market ids the engines know. */
  predicate KnownMarket(id: string)
  {
    id == "o15" || id == "o25" || id == "o35" || id == "btts"
  }

  /** The Over line of a totals market id (o15, o25, o35). */
  function LineOf(id: string): real
  {
    if id == "o15" then 1.5 else if id == "o25" then 2.5 else 3.5
  }

  /** The head-to-head rate compared with the season model at an Over line. */
  function OverRate(line: real, h: Summary): int
  {
    if line == 1.5 then h.over15Rate else if line == 2.5 then h.over25Rate else h.over35Rate
  }

  /** Expected goals: (home for + away against)/2 + (away for + home against)/2. */
  function ExpGoals(home: TeamStats, away: TeamStats): real
  {
    (home.goalsForAvg + away.goalsAgainstAvg) / 2.0 + (away.goalsForAvg + home.goalsAgainstAvg) / 2.0
  }

  /** The head-to-head part of a season note: meetings and the rate. */
  datatype H2HNote = H2HNote(meetings: int, rate: int)

  /** The fragments an explanation is made of; their wording is not modelled. */
  datatype Note =
    | InsufficientNote(homeMatches: int, awayMatches: int, minimum: int)
    | SeasonOverNote(expGoals: real, statProb: int, line: real, h2h: Option<H2HNote>)
    | SeasonBttsNote(pHomeScores: real, pAwayScores: real, statProb: int, h2h: Option<H2HNote>)
    | OddsLowNote(implied: int)
    | OddsDivergeNote(model: int, implied: int, gap: int)
    | OddsConsensusNote(bookmakers: nat, medianOdds: real, implied: int)
    | StatH2HConflictNote

  /** What calcOver and calcBTTS return. */
  datatype StatResult = StatResult(prob: int, note: Note, conflict: bool)

  /** `Math.round(a * 0.6 + b * 0.4)`, the season / head-to-head blend. */
  function Blend(a: int, b: int): int
  {
    Round(a as real * 0.6 + b as real * 0.4)
  }

  /** The blend lies between its two inputs. */
  lemma BlendBetween(a: int, b: int)
    ensures Min(a, b) <= Blend(a, b) <= (if a <= b then b else a)
  {
    var x := a as real * 0.6 + b as real * 0.4;
    if a <= b {
      assert a as real <= x <= b as real;
      RoundOfInt(a);
      RoundMonotone(a as real, x);
      RoundMonotone(x, b as real);
      RoundOfInt(b);
    } else {
      assert b as real <= x <= a as real;
      RoundOfInt(b);
      RoundMonotone(b as real, x);
      RoundMonotone(x, a as real);
      RoundOfInt(a);
    }
  }

  /** Without a conflict (a gap of at most 18) the blend moves the season
      figure by at most 7 points. */
  lemma BlendNearSeason(a: int, b: int)
    requires Abs(a - b) <= 18
    ensures Abs(Blend(a, b) - a) <= 7
  {
  }
}
