/** api/football/h2h.js: the finished meetings of two teams and their
    summary rates, which feed the head-to-head layer of the engine. */
module HeadToHead {
  import opened Common

  /** A match as football-data.org lists it; a missing full-time score is None. */
  datatype ApiMatch = ApiMatch(
    id: int, utcDate: string, status: string, homeTeam: string, awayTeam: string,
    fullTimeHome: Option<nat>, fullTimeAway: Option<nat>)

  /** A finished meeting, as the handler reports it. */
  datatype Meeting = Meeting(
    id: int, date: string, homeTeam: string, awayTeam: string,
    goalsHome: nat, goalsAway: nat, totalGoals: nat, btts: bool)

  /** The summary the engine reads (`h2hSummary`). Rates are percentages. */
  datatype Summary = Summary(
    totalMatches: int, avgGoals: real,
    bttsRate: int, over15Rate: int, over25Rate: int, over35Rate: int)

  /** The per-match mapping: a missing score counts as 0 goals. */
  function ToMeeting(m: ApiMatch): Meeting
  {
    var hg := OrElse(m.fullTimeHome, 0);
    var ag := OrElse(m.fullTimeAway, 0);
    Meeting(m.id, m.utcDate, m.homeTeam, m.awayTeam, hg, ag, hg + ag, hg > 0 && ag > 0)
  }

  /** Both teams scoring means at least two goals in the match. */
  lemma BttsMeansTwoGoals(m: ApiMatch)
    ensures ToMeeting(m).btts ==> ToMeeting(m).totalGoals >= 2
    ensures ToMeeting(m).btts <==> m.fullTimeHome.Some? && m.fullTimeAway.Some?
                                    && m.fullTimeHome.value > 0 && m.fullTimeAway.value > 0
  {
  }

  /** `matches.filter(m => m.status === 'FINISHED')` */
  function Finished(ms: seq<ApiMatch>): (r: seq<ApiMatch>)
    ensures |r| <= |ms|
    ensures forall i :: 0 <= i < |r| ==> r[i].status == "FINISHED"
  {
    if |ms| == 0 then []
    else Finished(ms[..|ms| - 1]) + (if ms[|ms| - 1].status == "FINISHED" then [ms[|ms| - 1]] else [])
  }

  /** A match survives the filter exactly when it is in the input and finished. */
  lemma {:induction false} FinishedMembers(ms: seq<ApiMatch>, m: ApiMatch)
    ensures m in Finished(ms) <==> m in ms && m.status == "FINISHED"
  {
    if |ms| > 0 {
      FinishedMembers(ms[..|ms| - 1], m);
      assert ms == ms[..|ms| - 1] + [ms[|ms| - 1]];
    }
  }

  /** The filtered and mapped list of lines 41-56 (`data.matches || []` is `ms`). */
  function FinishedMeetings(ms: seq<ApiMatch>): (r: seq<Meeting>)
    ensures |r| == |Finished(ms)|
    ensures forall i :: 0 <= i < |r| ==> r[i] == ToMeeting(Finished(ms)[i])
  {
    var f := Finished(ms);
    seq(|f|, i requires 0 <= i < |f| => ToMeeting(f[i]))
  }

  // ---------------------------------------------------------------------------
  // computeSummary

  function CountBtts(ms: seq<Meeting>): (c: nat)
    ensures c <= |ms|
  {
    if |ms| == 0 then 0 else CountBtts(ms[..|ms| - 1]) + (if ms[|ms| - 1].btts then 1 else 0)
  }

  /** The number of meetings with more than `line` goals. */
  function CountOver(ms: seq<Meeting>, line: real): (c: nat)
    ensures c <= |ms|
  {
    if |ms| == 0 then 0
    else CountOver(ms[..|ms| - 1], line) + (if ms[|ms| - 1].totalGoals as real > line then 1 else 0)
  }

  function TotalGoals(ms: seq<Meeting>): nat
  {
    if |ms| == 0 then 0 else TotalGoals(ms[..|ms| - 1]) + ms[|ms| - 1].totalGoals
  }

  /** `Math.round((count / n) * 100)`: a percentage between 0 and 100. */
  function Rate(count: nat, n: nat): (r: int)
    ensures 0 < n && count <= n ==> 0 <= r <= 100
  {
    if n == 0 then 0
    else
      assert count <= n ==> count as real / n as real <= 1.0;
      Round((count as real / n as real) * 100.0)
  }

  lemma RateMonotone(c1: nat, c2: nat, n: nat)
    requires c1 <= c2 && 0 < n
    ensures Rate(c1, n) <= Rate(c2, n)
  {
    assert c1 as real / n as real <= c2 as real / n as real;
    RoundMonotone((c1 as real / n as real) * 100.0, (c2 as real / n as real) * 100.0);
  }

  /** A higher line never counts more meetings. */
  lemma {:induction false} CountOverAntitone(ms: seq<Meeting>, lo: real, hi: real)
    requires lo <= hi
    ensures CountOver(ms, hi) <= CountOver(ms, lo)
  {
    if |ms| > 0 {
      CountOverAntitone(ms[..|ms| - 1], lo, hi);
    }
  }

  /** Meetings in which both teams scoring means two goals or more, as the
      per-match mapping builds them. */
  predicate Consistent(ms: seq<Meeting>)
  {
    forall i :: 0 <= i < |ms| ==> (ms[i].btts ==> ms[i].totalGoals >= 2)
  }

  /** A meeting where both teams scored went over 1.5 goals. */
  lemma {:induction false} BttsAtMostOver15(ms: seq<Meeting>)
    requires Consistent(ms)
    ensures CountBtts(ms) <= CountOver(ms, 1.5)
  {
    if |ms| > 0 {
      BttsAtMostOver15(ms[..|ms| - 1]);
    }
  }

  /** getMockH2HSummary */
  function MockSummary(): Summary
  {
    Summary(8, 2.75, 62, 87, 62, 37)
  }

  /** Over-rates that fall as the line rises, all percentages. */
  predicate RatesOrdered(s: Summary)
  {
    0 <= s.over35Rate <= s.over25Rate <= s.over15Rate <= 100 && 0 <= s.bttsRate <= 100
  }

  /** For consistent meetings the BTTS rate is at most the Over 1.5 rate. */
  lemma BttsRateBound(ms: seq<Meeting>)
    requires |ms| > 0
    ensures Consistent(ms) ==> Rate(CountBtts(ms), |ms|) <= Rate(CountOver(ms, 1.5), |ms|)
  {
    if Consistent(ms) {
      BttsAtMostOver15(ms);
      RateMonotone(CountBtts(ms), CountOver(ms, 1.5), |ms|);
    }
  }

  /** computeSummary: the mock summary for no meetings, else the rates. */
  function ComputeSummary(ms: seq<Meeting>): (r: Summary)
    ensures |ms| == 0 ==> r == MockSummary()
    ensures |ms| > 0 ==> r.totalMatches == |ms|
    ensures |ms| > 0 ==> r.bttsRate == Rate(CountBtts(ms), |ms|)
    ensures |ms| > 0 ==> r.over15Rate == Rate(CountOver(ms, 1.5), |ms|)
    ensures |ms| > 0 ==> r.over25Rate == Rate(CountOver(ms, 2.5), |ms|)
    ensures |ms| > 0 ==> r.over35Rate == Rate(CountOver(ms, 3.5), |ms|)
    ensures |ms| > 0 ==> r.avgGoals == Round(TotalGoals(ms) as real / |ms| as real * 100.0) as real / 100.0
    ensures RatesOrdered(r)
    ensures Consistent(ms) ==> r.bttsRate <= r.over15Rate
  {
    if |ms| == 0 then MockSummary()
    else
      var n := |ms|;
      var avgGoals := TotalGoals(ms) as real / n as real;
      CountOverAntitone(ms, 1.5, 2.5);
      CountOverAntitone(ms, 2.5, 3.5);
      RateMonotone(CountOver(ms, 3.5), CountOver(ms, 2.5), n);
      RateMonotone(CountOver(ms, 2.5), CountOver(ms, 1.5), n);
      BttsRateBound(ms);
      Summary(
        n, Round(avgGoals * 100.0) as real / 100.0,
        Rate(CountBtts(ms), n), Rate(CountOver(ms, 1.5), n),
        Rate(CountOver(ms, 2.5), n), Rate(CountOver(ms, 3.5), n))
  }

  /** Meetings built by the per-match mapping meet computeSummary's requirement. */
  lemma MeetingsAreConsistent(ms: seq<ApiMatch>)
    ensures Consistent(FinishedMeetings(ms))
  {
    var r := FinishedMeetings(ms);
    forall i | 0 <= i < |r|
      ensures r[i].btts ==> r[i].totalGoals >= 2
    {
      BttsMeansTwoGoals(Finished(ms)[i]);
    }
  }

  /** The summary of a match list counts its finished matches, and falls back
      to the mock summary when none is finished. */
  function SummaryOf(ms: seq<ApiMatch>): (r: Summary)
    ensures |Finished(ms)| == 0 ==> r == MockSummary()
    ensures |Finished(ms)| > 0 ==> r.totalMatches == |Finished(ms)|
    ensures RatesOrdered(r) && r.bttsRate <= r.over15Rate
  {
    MeetingsAreConsistent(ms);
    ComputeSummary(FinishedMeetings(ms))
  }
}
