/** src/oddsKeyMap.js: football-data.org competition codes to The Odds API
    sport keys, the fuzzy matching of an odds event to a fixture by team
    names, and the median extractor of one market's prices. */
module OddsKeyMap {
  import opened Common
  import opened JsText
  import opened OddsFeed
  import opened Prices
  import EngineTypes

  // ---------------------------------------------------------------------------
  // Competition codes

  /** COMPETITION_TO_ODDS_KEY */
  const CompetitionToOddsKey: map<string, string> := map[
    "PL" := "soccer_epl",
    "PD" := "soccer_spain_la_liga",
    "BL1" := "soccer_germany_bundesliga",
    "SA" := "soccer_italy_serie_a",
    "FL1" := "soccer_france_ligue_one",
    "DED" := "soccer_netherlands_eredivisie",
    "PPL" := "soccer_portugal_primeira_liga",
    "ELC" := "soccer_england_league1",
    "CL" := "soccer_uefa_champs_league",
    "EC" := "soccer_uefa_european_championship"
  ]

  /** The members every plain JavaScript object inherits from Object.prototype. */
  const ObjectPrototypeMembers: set<string> := {
    "constructor", "toString", "toLocaleString", "valueOf", "hasOwnProperty",
    "isPrototypeOf", "propertyIsEnumerable", "__proto__",
    "__defineGetter__", "__defineSetter__", "__lookupGetter__", "__lookupSetter__"
  }

  /** What `COMPETITION_TO_ODDS_KEY[code] ?? null` evaluates to. */
  datatype Lookup = Mapped(sportKey: string) | Inherited(member: string) | Null

  /** getOddsKey as written: a bracket lookup on an object literal also finds
      the inherited Object.prototype members, whose values are not nullish. */
  function GetOddsKeyAsWritten(code: string): (r: Lookup)
    ensures r.Mapped? <==> code in CompetitionToOddsKey
    ensures r.Null? <==> code !in CompetitionToOddsKey && code !in ObjectPrototypeMembers
  {
    if code in CompetitionToOddsKey then Mapped(CompetitionToOddsKey[code])
    else if code in ObjectPrototypeMembers then Inherited(code)
    else Null
  }

  /** An unlisted code such as "constructor" does not give null. */
  lemma AsWrittenLeaksPrototype()
    ensures "constructor" !in CompetitionToOddsKey
    ensures !GetOddsKeyAsWritten("constructor").Null?
  {
    assert "constructor" in ObjectPrototypeMembers;
  }

  /** getOddsKey, as intended: only the object's own entries are found. */
  function GetOddsKey(code: string): (r: Option<string>)
    ensures r.Some? ==> code in CompetitionToOddsKey && r.value == CompetitionToOddsKey[code]
  {
    if code in CompetitionToOddsKey then Some(CompetitionToOddsKey[code]) else None
  }

  /** The ten listed codes map to their sport keys; every other code,
      Object.prototype's member names included, gives null. */
  lemma GetOddsKeyTable(code: string)
    ensures GetOddsKey("PL") == Some("soccer_epl")
    ensures GetOddsKey("PD") == Some("soccer_spain_la_liga")
    ensures GetOddsKey("BL1") == Some("soccer_germany_bundesliga")
    ensures GetOddsKey("SA") == Some("soccer_italy_serie_a")
    ensures GetOddsKey("FL1") == Some("soccer_france_ligue_one")
    ensures GetOddsKey("DED") == Some("soccer_netherlands_eredivisie")
    ensures GetOddsKey("PPL") == Some("soccer_portugal_primeira_liga")
    ensures GetOddsKey("ELC") == Some("soccer_england_league1")
    ensures GetOddsKey("CL") == Some("soccer_uefa_champs_league")
    ensures GetOddsKey("EC") == Some("soccer_uefa_european_championship")
    ensures code !in {"PL", "PD", "BL1", "SA", "FL1", "DED", "PPL", "ELC", "CL", "EC"} ==> GetOddsKey(code).None?
    ensures GetOddsKey("constructor").None?
  {
  }

  /** The two readings differ only on Object.prototype's member names. */
  lemma GetOddsKeyAgreesElsewhere(code: string)
    requires code !in ObjectPrototypeMembers
    ensures GetOddsKey(code).Some? <==> GetOddsKeyAsWritten(code).Mapped?
    ensures GetOddsKey(code).Some? ==> GetOddsKey(code).value == GetOddsKeyAsWritten(code).sportKey
  {
  }

  // ---------------------------------------------------------------------------
  // normalize

  /** `s` ends with `suffix` and a white-space character comes just before it. */
  predicate SuffixAfterSpace(s: string, suffix: string)
  {
    |s| > |suffix| && s[|s| - |suffix|..] == suffix && IsSpace(s[|s| - |suffix| - 1])
  }

  /** `.replace(/\s+suffix$/i, '')` on a lower-cased string: the suffix and
      the whole run of white space before it go, at the end only. */
  function StripSuffix(s: string, suffix: string): (r: string)
    ensures r <= s
    ensures r != s ==> |r| + |suffix| < |s| && s[|s| - |suffix|..] == suffix
    ensures SuffixAfterSpace(s, suffix) ==>
              && |r| + |suffix| < |s|
              && AllSpace(s[|r|..|s| - |suffix|])
              && (|r| > 0 ==> !IsSpace(s[|r| - 1]))
    ensures !SuffixAfterSpace(s, suffix) ==> r == s
  {
    if SuffixAfterSpace(s, suffix) then
      var r := TrimEnd(s[..|s| - |suffix|]);
      assert r == s[..|r|];
      r
    else s
  }

  /** `.replace(/\bword\b/g, rep)`, scanning left to right; `prevIsWord` says
      whether the character before `s` is a word character. */
  function ReplaceWord(s: string, prevIsWord: bool, word: string, rep: string): string
    requires |word| > 0
    decreases |s|
  {
    if |s| == 0 then []
    else if !prevIsWord && word <= s && (|s| == |word| || !IsWordChar(s[|word|])) then
      rep + ReplaceWord(s[|word|..], IsWordChar(word[|word| - 1]), word, rep)
    else [s[0]] + ReplaceWord(s[1..], IsWordChar(s[0]), word, rep)
  }

  /** Replacing a word by itself changes nothing. */
  lemma {:induction false} ReplaceWordIdentity(s: string, prevIsWord: bool, word: string)
    requires |word| > 0
    ensures ReplaceWord(s, prevIsWord, word, word) == s
    decreases |s|
  {
    if |s| > 0 {
      if !prevIsWord && word <= s && (|s| == |word| || !IsWordChar(s[|word|])) {
        ReplaceWordIdentity(s[|word|..], IsWordChar(word[|word| - 1]), word);
        assert s == word + s[|word|..];
      } else {
        ReplaceWordIdentity(s[1..], IsWordChar(s[0]), word);
        assert s == [s[0]] + s[1..];
      }
    }
  }

  /** `.replace(/[^a-z0-9]/g, '')` */
  function KeepLowerAlnum(s: string): (r: string)
    ensures forall i :: 0 <= i < |r| ==> IsLowerAlnum(r[i])
    ensures forall c :: c in r <==> c in s && IsLowerAlnum(c)
  {
    if |s| == 0 then []
    else (if IsLowerAlnum(s[0]) then [s[0]] else []) + KeepLowerAlnum(s[1..])
  }

  /** The replacement steps of normalize, before the final trim. */
  function Canonical(name: string): string
  {
    var s := StripSuffix(StripSuffix(ToLower(name), "fc"), "afc");
    var s := ReplaceWord(s, false, "man", "manchester");
    var s := ReplaceWord(s, false, "spurs", "tottenham");
    var s := ReplaceWord(s, false, "atletico", "atletico");
    KeepLowerAlnum(s)
  }

  /** normalize: the result holds only [a-z0-9], and the final trim has
      nothing left to remove. */
  function Normalize(name: string): (r: string)
    ensures forall i :: 0 <= i < |r| ==> IsLowerAlnum(r[i])
    ensures r == Canonical(name)
  {
    var s := Canonical(name);
    assert forall c :: c in s ==> !IsSpace(c);
    TrimNoSpace(s);
    Trim(s)
  }

  /** The `atletico` replacement is the identity. */
  lemma AtleticoIsIdentity(s: string)
    ensures ReplaceWord(s, false, "atletico", "atletico") == s
  {
    ReplaceWordIdentity(s, false, "atletico");
  }

  // ---------------------------------------------------------------------------
  // matchOddsToFixture

  /** The team names of a fixture (`fixture.homeTeam.name`, `fixture.awayTeam.name`). */
  datatype Fixture = Fixture(homeName: string, awayName: string)

  /** One side matches when either normalised name contains the other. */
  predicate SideMatches(a: string, b: string)
  {
    Contains(a, b) || Contains(b, a)
  }

  /** matchOddsToFixture */
  function MatchOddsToFixture(ev: OddsEvent, fx: Fixture): (r: bool)
    ensures r <==> SideMatches(Normalize(ev.homeTeam), Normalize(fx.homeName))
                   && SideMatches(Normalize(ev.awayTeam), Normalize(fx.awayName))
  {
    var oddsHome := Normalize(ev.homeTeam);
    var oddsAway := Normalize(ev.awayTeam);
    var fixHome := Normalize(fx.homeName);
    var fixAway := Normalize(fx.awayName);
    if oddsHome == fixHome && oddsAway == fixAway then
      assert Contains(oddsHome, fixHome) && Contains(oddsAway, fixAway);
      true
    else
      var homeMatch := Contains(oddsHome, fixHome) || Contains(fixHome, oddsHome);
      var awayMatch := Contains(oddsAway, fixAway) || Contains(fixAway, oddsAway);
      homeMatch && awayMatch
  }

  /** An odds event carrying the fixture's own names matches it. */
  lemma MatchReflexive(ev: OddsEvent, fx: Fixture)
    requires ev.homeTeam == fx.homeName && ev.awayTeam == fx.awayName
    ensures MatchOddsToFixture(ev, fx)
  {
    assert Contains(Normalize(ev.homeTeam), Normalize(fx.homeName));
    assert Contains(Normalize(ev.awayTeam), Normalize(fx.awayName));
  }

  /** A name that normalises to nothing matches every name on its side. */
  lemma EmptyNameMatches(a: string, b: string)
    requires Normalize(a) == []
    ensures SideMatches(Normalize(a), Normalize(b)) && SideMatches(Normalize(b), Normalize(a))
  {
    assert [] <= Normalize(b);
  }

  /** A side matches exactly when one normalised name occurs in the other. */
  lemma SideMatchesAt(a: string, b: string)
    ensures SideMatches(a, b) <==> (exists i :: OccursAt(a, b, i)) || (exists i :: OccursAt(b, a, i))
  {
    ContainsAt(a, b);
    ContainsAt(b, a);
  }

  // ---------------------------------------------------------------------------
  // extractMarketOdds

  /** What extractMarketOdds reports. */
  datatype MarketOdds = MarketOdds(
    medianOdds: real, bestOdds: real, worstOdds: real, impliedProb: int,
    bookmakerCount: nat, marketKey: string)

  /** The quote of a market: nothing when the market is absent or quotes
      no wanted price; otherwise the median of the sorted prices (not
      rounded), the highest and lowest price, the median's implied
      percentage and the number of bookmaker entries. */
  function MarketOddsOf(ev: OddsEvent, key: string, line: Option<real>): (r: Option<MarketOdds>)
    ensures r.None? <==> key !in ev.markets || |CollectPrices(ev.markets[key], line)| == 0
    ensures r.Some? ==>
              var prices := CollectPrices(ev.markets[key], line);
              && r.value.medianOdds == Median(SortPrices(prices))
              && r.value.medianOdds in prices
              && r.value.worstOdds == MinOf(prices) && r.value.bestOdds == MaxOf(prices)
              && r.value.worstOdds <= r.value.medianOdds <= r.value.bestOdds
              && r.value.impliedProb == ImpliedProb(Median(SortPrices(prices)))
              && r.value.bookmakerCount == |ev.markets[key]|
              && r.value.marketKey == key
  {
    if key !in ev.markets || |ev.markets[key]| == 0 then None
    else
      var prices := CollectPrices(ev.markets[key], line);
      if |prices| == 0 then None
      else
        var sorted := SortPrices(prices);
        var median := Median(sorted);
        ExtremesOfSorted(prices);
        MedianBetween(prices);
        Some(MarketOdds(median, MaxOf(sorted), MinOf(sorted), ImpliedProb(median), |ev.markets[key]|, key))
  }

  /** The price loops, sort and median of extractMarketOdds. */
  method ExtractMarketOdds(ev: OddsEvent, key: string, line: Option<real>) returns (r: Option<MarketOdds>)
    ensures r == MarketOddsOf(ev, key, line)
  {
    if key !in ev.markets || |ev.markets[key]| == 0 {
      return None;
    }
    var marketData := ev.markets[key];
    var prices := CollectTargetPrices(marketData, line);
    if |prices| == 0 {
      return None;
    }
    var sorted := SortedCopy(prices);
    var median := sorted[|sorted| / 2];
    r := Some(MarketOdds(median, MaxOf(sorted), MinOf(sorted), ImpliedProb(median), |marketData|, key));
  }

  /** An Over/Yes outcome without a point is collected whatever line is asked for. */
  lemma PointlessOutcomeCounts(bms: seq<BookmakerMarket>, b: BookmakerMarket, o: Outcome, line: Option<real>)
    requires b in bms && o in b.outcomes && IsTarget(o) && o.point.None?
    ensures o.price in CollectPrices(bms, line)
  {
    CollectPricesOrigin(bms, line, o.price);
  }

  // ---------------------------------------------------------------------------
  // marketIdToOddsParams

  /** marketIdToOddsParams */
  function MarketIdToOddsParams(id: string): (r: Option<OddsParams>)
    ensures r.Some? <==> id in {"o15", "o25", "o35", "btts"}
    ensures r.Some? ==> (r.value.key == "btts" <==> r.value.line.None?)
    ensures r.Some? ==> (r.value.key == "totals" <==> r.value.line.Some?)
    ensures EngineTypes.KnownMarket(id) && id != "btts" ==> r == Some(OddsParams("totals", Some(EngineTypes.LineOf(id))))
    ensures id == "btts" ==> r == Some(OddsParams("btts", None))
  {
    match id
    case "o15" => Some(OddsParams("totals", Some(1.5)))
    case "o25" => Some(OddsParams("totals", Some(2.5)))
    case "o35" => Some(OddsParams("totals", Some(3.5)))
    case "btts" => Some(OddsParams("btts", None))
    case _ => None
  }
}
