/** admin.js: the password-protected admin endpoint. The `overview` action
    merges the auth users with their profiles and usage rows and aggregates
    them: counts, sign-ups per day, subjects and sign-in providers. The
    Supabase replies, the environment and the clock are parameters; the
    fetches the handler issues are returned as a list. */
module Admin {
  import opened Common
  import opened JsText

  // ---------------------------------------------------------------------------
  // Records

  /** An auth user; an absent or empty field is None or "". */
  datatype AuthUser = AuthUser(
    id: string, email: Option<string>, provider: Option<string>, emailConfirmedAt: Option<string>,
    createdAt: Option<string>, lastSignInAt: Option<string>)

  /** A row of the `users` table. */
  datatype Profile = Profile(id: string, subject: Option<string>)

  /** A row of the `user_stats` table. */
  datatype StatRow = StatRow(
    userId: string, subject: Option<string>, questionsUsed: Option<int>,
    sessionsCount: Option<int>, lastActive: Option<string>)

  /** One record of `merged`. */
  datatype Merged = Merged(
    id: string, email: Option<string>, provider: string, confirmed: bool,
    createdAt: Option<string>, lastSignIn: Option<string>, subject: string,
    questionsUsed: int, sessionsCount: int, lastActive: Option<string>)

  /** A string field is truthy when present and not empty. */
  predicate Truthy(o: Option<string>)
  {
    o.Some? && o.value != ""
  }

  /** `a || b` on optional strings. */
  function OrTruthy(a: Option<string>, b: Option<string>): Option<string>
  {
    if Truthy(a) then a else b
  }

  /** `x || 0` on an optional count. */
  function OrZero(x: Option<int>): int
  {
    if x.Some? && x.value != 0 then x.value else 0
  }

  /** `users.find(u => u.id === id)`: the first profile with that id. */
  function FindProfile(users: seq<Profile>, id: string): (r: Option<Profile>)
    ensures r.Some? ==> r.value in users && r.value.id == id
    ensures r.None? ==> forall i :: 0 <= i < |users| ==> users[i].id != id
  {
    if |users| == 0 then None
    else if users[0].id == id then Some(users[0])
    else FindProfile(users[1..], id)
  }

  /** `stats.find(s => s.user_id === id)`: the first usage row of that user. */
  function FindStat(stats: seq<StatRow>, id: string): (r: Option<StatRow>)
    ensures r.Some? ==> r.value in stats && r.value.userId == id
    ensures r.None? ==> forall i :: 0 <= i < |stats| ==> stats[i].userId != id
  {
    if |stats| == 0 then None
    else if stats[0].userId == id then Some(stats[0])
    else FindStat(stats[1..], id)
  }

  /** The profile found is the first one with the id. */
  lemma {:induction false} FindProfileFirst(users: seq<Profile>, id: string, i: nat)
    requires i < |users| && users[i].id == id
    requires forall j :: 0 <= j < i ==> users[j].id != id
    ensures FindProfile(users, id) == Some(users[i])
  {
    if i > 0 {
      FindProfileFirst(users[1..], id, i - 1);
    }
  }

  /** The usage row found is the first one with the id. */
  lemma {:induction false} FindStatFirst(stats: seq<StatRow>, id: string, i: nat)
    requires i < |stats| && stats[i].userId == id
    requires forall j :: 0 <= j < i ==> stats[j].userId != id
    ensures FindStat(stats, id) == Some(stats[i])
  {
    if i > 0 {
      FindStatFirst(stats[1..], id, i - 1);
    }
  }

  /** The merged record of one auth user; a missing profile or usage row
      reads as `{}`. */
  function MergeOne(au: AuthUser, users: seq<Profile>, stats: seq<StatRow>): (m: Merged)
    ensures m.id == au.id && m.email == au.email && m.createdAt == au.createdAt
    ensures m.provider == if Truthy(au.provider) then au.provider.value else "email"
    ensures m.provider != ""
    ensures m.confirmed <==> Truthy(au.emailConfirmedAt)
  {
    var profile := FindProfile(users, au.id);
    var stat := FindStat(stats, au.id);
    var profileSubject := if profile.Some? then profile.value.subject else None;
    var statSubject := if stat.Some? then stat.value.subject else None;
    Merged(
      au.id, au.email,
      if Truthy(au.provider) then au.provider.value else "email",
      Truthy(au.emailConfirmedAt),
      au.createdAt, au.lastSignInAt,
      OrElse(OrTruthy(profileSubject, statSubject), ""),
      if stat.Some? then OrZero(stat.value.questionsUsed) else 0,
      if stat.Some? then OrZero(stat.value.sessionsCount) else 0,
      OrTruthy(if stat.Some? then stat.value.lastActive else None, au.lastSignInAt))
  }

  /** `authUsers.map(...)`: one record per auth user, in auth order. */
  function MergeAll(authUsers: seq<AuthUser>, users: seq<Profile>, stats: seq<StatRow>): (r: seq<Merged>)
    ensures |r| == |authUsers|
    ensures forall i :: 0 <= i < |r| ==> r[i] == MergeOne(authUsers[i], users, stats)
  {
    seq(|authUsers|, i requires 0 <= i < |authUsers| => MergeOne(authUsers[i], users, stats))
  }

  // ---------------------------------------------------------------------------
  // Counts

  function CountConfirmed(ms: seq<Merged>): (c: nat)
    ensures c <= |ms|
  {
    if |ms| == 0 then 0 else CountConfirmed(ms[..|ms| - 1]) + (if ms[|ms| - 1].confirmed then 1 else 0)
  }

  /** Active within `window` ms of `now`: a truthy last-active time that
      parses (`parse` stands for `new Date`; None is an invalid date, whose
      NaN comparison is false). */
  predicate ActiveWithin(m: Merged, now: int, parse: string -> Option<int>, window: int)
  {
    Truthy(m.lastActive) && parse(m.lastActive.value).Some? && now - parse(m.lastActive.value).value < window
  }

  function CountActive(ms: seq<Merged>, now: int, parse: string -> Option<int>, window: int): (c: nat)
    ensures c <= |ms|
  {
    if |ms| == 0 then 0
    else CountActive(ms[..|ms| - 1], now, parse, window) + (if ActiveWithin(ms[|ms| - 1], now, parse, window) then 1 else 0)
  }

  /** A wider window never counts fewer users. */
  lemma {:induction false} CountActiveMonotone(ms: seq<Merged>, now: int, parse: string -> Option<int>, w1: int, w2: int)
    requires w1 <= w2
    ensures CountActive(ms, now, parse, w1) <= CountActive(ms, now, parse, w2)
  {
    if |ms| > 0 {
      CountActiveMonotone(ms[..|ms| - 1], now, parse, w1, w2);
    }
  }

  function SumQuestions(ms: seq<Merged>): int
  {
    if |ms| == 0 then 0 else SumQuestions(ms[..|ms| - 1]) + ms[|ms| - 1].questionsUsed
  }

  function SumSessions(ms: seq<Merged>): int
  {
    if |ms| == 0 then 0 else SumSessions(ms[..|ms| - 1]) + ms[|ms| - 1].sessionsCount
  }

  // ---------------------------------------------------------------------------
  // Tallies: `map[k] = (map[k] || 0) + 1` over an object, in insertion order

  datatype KeyCount = KeyCount(key: string, count: nat)

  /** The position of key k in a tally, or -1. */
  function IndexOf(t: seq<KeyCount>, k: string): (i: int)
    ensures -1 <= i < |t|
    ensures 0 <= i ==> t[i].key == k
    ensures i == -1 ==> forall j :: 0 <= j < |t| ==> t[j].key != k
  {
    if |t| == 0 then -1
    else if t[|t| - 1].key == k then |t| - 1
    else IndexOf(t[..|t| - 1], k)
  }

  /** One increment: the key's count goes up, or the key is appended with 1. */
  function Bump(t: seq<KeyCount>, k: string): seq<KeyCount>
  {
    var i := IndexOf(t, k);
    if i >= 0 then t[i := KeyCount(k, t[i].count + 1)] else t + [KeyCount(k, 1)]
  }

  /** The tally of a list of keys. */
  function TallyOf(keys: seq<string>): seq<KeyCount>
  {
    if |keys| == 0 then [] else Bump(TallyOf(keys[..|keys| - 1]), keys[|keys| - 1])
  }

  /** The tally loop. */
  method Tally(keys: seq<string>) returns (t: seq<KeyCount>)
    ensures t == TallyOf(keys)
  {
    t := [];
    for n := 0 to |keys|
      invariant t == TallyOf(keys[..n])
    {
      assert keys[..n + 1][..n] == keys[..n];
      var k := keys[n];
      var i := IndexOf(t, k);
      if i >= 0 {
        t := t[i := KeyCount(k, t[i].count + 1)];
      } else {
        t := t + [KeyCount(k, 1)];
      }
    }
    assert keys[..|keys|] == keys;
  }

  /** Each key at most once, every count positive. */
  predicate WellFormed(t: seq<KeyCount>)
  {
    && (forall i, j :: 0 <= i < j < |t| ==> t[i].key != t[j].key)
    && (forall i :: 0 <= i < |t| ==> t[i].count > 0)
  }

  function Occurrences(keys: seq<string>, k: string): nat
  {
    if |keys| == 0 then 0 else Occurrences(keys[..|keys| - 1], k) + (if keys[|keys| - 1] == k then 1 else 0)
  }

  /** The tallied count of k (0 when absent). */
  function CountOf(t: seq<KeyCount>, k: string): nat
  {
    var i := IndexOf(t, k);
    if i >= 0 then t[i].count else 0
  }

  function Total(t: seq<KeyCount>): nat
  {
    if |t| == 0 then 0 else Total(t[..|t| - 1]) + t[|t| - 1].count
  }

  lemma {:induction false} TotalUpdate(t: seq<KeyCount>, i: int, x: KeyCount)
    requires 0 <= i < |t|
    ensures Total(t[i := x]) + t[i].count == Total(t) + x.count
  {
    if i < |t| - 1 {
      assert t[i := x][..|t| - 1] == t[..|t| - 1][i := x];
      TotalUpdate(t[..|t| - 1], i, x);
    } else {
      assert t[i := x][..|t| - 1] == t[..|t| - 1];
    }
  }

  lemma {:induction false} IndexOfDistinct(t: seq<KeyCount>, k: string, j: int)
    requires WellFormed(t) && 0 <= j < |t| && t[j].key == k
    ensures IndexOf(t, k) == j
  {
    if j < |t| - 1 {
      IndexOfDistinct(t[..|t| - 1], k, j);
    }
  }

  /** One increment keeps a tally well formed and adds one to its total. */
  lemma BumpShape(t: seq<KeyCount>, k: string)
    requires WellFormed(t)
    ensures WellFormed(Bump(t, k))
    ensures Total(Bump(t, k)) == Total(t) + 1
  {
    var i := IndexOf(t, k);
    if i >= 0 {
      TotalUpdate(t, i, KeyCount(k, t[i].count + 1));
    } else {
      assert Bump(t, k)[..|t|] == t;
    }
  }

  /** One increment adds one to the key's count and leaves every other
      count alone. */
  lemma BumpCount(t: seq<KeyCount>, k: string, k': string)
    requires WellFormed(t) && WellFormed(Bump(t, k))
    ensures CountOf(Bump(t, k), k') == CountOf(t, k') + (if k' == k then 1 else 0)
  {
    var i := IndexOf(t, k);
    var t' := Bump(t, k);
    if k' == k {
      IndexOfDistinct(t', k', if i >= 0 then i else |t|);
    } else if IndexOf(t, k') >= 0 {
      IndexOfDistinct(t', k', IndexOf(t, k'));
    } else {
      assert IndexOf(t', k') == -1;
    }
  }

  /** One increment keeps a tally well formed, adds one to the key's count
      and to the total, and leaves every other count alone. */
  lemma BumpCorrect(t: seq<KeyCount>, k: string)
    requires WellFormed(t)
    ensures WellFormed(Bump(t, k))
    ensures Total(Bump(t, k)) == Total(t) + 1
    ensures forall k' :: CountOf(Bump(t, k), k') == CountOf(t, k') + (if k' == k then 1 else 0)
  {
    BumpShape(t, k);
    forall k' | true
      ensures CountOf(Bump(t, k), k') == CountOf(t, k') + (if k' == k then 1 else 0)
    {
      BumpCount(t, k, k');
    }
  }

  /** A tally is well formed, counts every key's occurrences, and its counts
      sum to the number of keys. */
  lemma {:induction false} TallyCorrect(keys: seq<string>)
    ensures WellFormed(TallyOf(keys))
    ensures forall k :: CountOf(TallyOf(keys), k) == Occurrences(keys, k)
    ensures Total(TallyOf(keys)) == |keys|
  {
    if |keys| > 0 {
      TallyCorrect(keys[..|keys| - 1]);
      BumpCorrect(TallyOf(keys[..|keys| - 1]), keys[|keys| - 1]);
    }
  }

  // ---------------------------------------------------------------------------
  // Sorting the entries

  /** Ascending by key (code-unit order stands for localeCompare). */
  predicate SortedByKey(t: seq<KeyCount>)
  {
    forall i, j :: 0 <= i < j < |t| ==> LexLe(t[i].key, t[j].key)
  }

  /** An entry whose key precedes the head's can go in front. */
  lemma ConsByKey(y: KeyCount, rest: seq<KeyCount>)
    requires SortedByKey(rest) && (|rest| > 0 ==> LexLe(y.key, rest[0].key))
    ensures SortedByKey([y] + rest)
  {
    var r := [y] + rest;
    forall i, j | 0 <= i < j < |r|
      ensures LexLe(r[i].key, r[j].key)
    {
      if i == 0 && j > 1 {
        LexLeTransitive(y.key, rest[0].key, rest[j - 1].key);
      }
    }
  }

  function InsertByKey(x: KeyCount, s: seq<KeyCount>): (r: seq<KeyCount>)
    requires SortedByKey(s)
    ensures |r| == |s| + 1 && (r[0] == x || (|s| > 0 && r[0] == s[0]))
    ensures SortedByKey(r) && multiset(r) == multiset(s) + multiset{x}
  {
    if |s| == 0 then [x]
    else if LexLe(x.key, s[0].key) then
      ConsByKey(x, s);
      [x] + s
    else
      LexLeTotal(x.key, s[0].key);
      var rest := InsertByKey(x, s[1..]);
      assert s == [s[0]] + s[1..];
      assert LexLe(s[0].key, rest[0].key);
      ConsByKey(s[0], rest);
      [s[0]] + rest
  }

  /** `.sort(([a], [b]) => a.localeCompare(b))` */
  function SortByKey(t: seq<KeyCount>): (r: seq<KeyCount>)
    ensures SortedByKey(r) && multiset(r) == multiset(t) && |r| == |t|
  {
    if |t| == 0 then []
    else
      assert t == t[..|t| - 1] + [t[|t| - 1]];
      InsertByKey(t[|t| - 1], SortByKey(t[..|t| - 1]))
  }

  /** Non-increasing by count. */
  predicate SortedByCount(t: seq<KeyCount>)
  {
    forall i, j :: 0 <= i < j < |t| ==> t[i].count >= t[j].count
  }

  /** An entry with at least the head's count can go in front. */
  lemma ConsByCount(y: KeyCount, rest: seq<KeyCount>)
    requires SortedByCount(rest) && (|rest| > 0 ==> y.count >= rest[0].count)
    ensures SortedByCount([y] + rest)
  {
  }

  /** Insert after every entry with at least x's count, so ties keep their order. */
  function InsertByCount(x: KeyCount, s: seq<KeyCount>): (r: seq<KeyCount>)
    requires SortedByCount(s)
    ensures |r| == |s| + 1 && (r[0] == x || (|s| > 0 && r[0] == s[0]))
    ensures SortedByCount(r) && multiset(r) == multiset(s) + multiset{x}
  {
    if |s| == 0 then [x]
    else if s[0].count >= x.count then
      var rest := InsertByCount(x, s[1..]);
      assert s == [s[0]] + s[1..];
      ConsByCount(s[0], rest);
      [s[0]] + rest
    else
      ConsByCount(x, s);
      [x] + s
  }

  /** `.sort(([, a], [, b]) => b - a)` */
  function SortByCount(t: seq<KeyCount>): (r: seq<KeyCount>)
    ensures SortedByCount(r) && multiset(r) == multiset(t) && |r| == |t|
  {
    if |t| == 0 then []
    else
      assert t == t[..|t| - 1] + [t[|t| - 1]];
      InsertByCount(t[|t| - 1], SortByCount(t[..|t| - 1]))
  }

  // ---------------------------------------------------------------------------
  // The keys of the three tallies

  /** The sign-up day of a record, when `created_at` is truthy: its first ten characters. */
  function SignupDay(m: Merged): Option<string>
  {
    if Truthy(m.createdAt) then Some(Take(m.createdAt.value, 10)) else None
  }

  /** Some record signed up on day `d`. */
  ghost predicate SignupOn(ms: seq<Merged>, d: string)
  {
    exists m :: m in ms && SignupDay(m) == Some(d)
  }

  /** The sign-up days of the records that have one, in record order. */
  function SignupDays(ms: seq<Merged>): (r: seq<string>)
    ensures |r| <= |ms|
    ensures forall i :: 0 <= i < |r| ==> |r[i]| <= 10
    ensures forall d :: d in r <==> SignupOn(ms, d)
  {
    if |ms| == 0 then []
    else
      var pre := ms[..|ms| - 1];
      var last := ms[|ms| - 1];
      var d := SignupDay(last);
      assert ms == pre + [last];
      assert forall x :: SignupOn(ms, x) <==> SignupOn(pre, x) || d == Some(x);
      SignupDays(pre) + (if d.Some? then [d.value] else [])
  }

  /** No white space at either end. */
  predicate Trimmed(r: string)
  {
    |r| > 0 ==> !IsSpace(r[0]) && !IsSpace(r[|r| - 1])
  }

  /** `s.split(sep)[0].trim()`: the text before the first `sep`, less its
      white-space margins. */
  function Head(s: string, sep: char): (r: string)
    ensures WithinMargins(BeforeFirst(s, sep), r)
    ensures sep !in r
    ensures forall c :: c !in s ==> c !in r
    ensures Trimmed(r)
  {
    TrimMargins(BeforeFirst(s, sep));
    Trim(BeforeFirst(s, sep))
  }

  /** A subject bucket: not empty, free of em dashes and commas, trimmed. */
  predicate GoodKey(r: string)
  {
    r != "" && '—' !in r && ',' !in r && Trimmed(r)
  }

  /** The bucket of a subject, with `fallback` for an empty subject or an empty result. */
  function Bucket(subject: string, fallback: string): (r: string)
    requires GoodKey(fallback)
    ensures GoodKey(r)
    ensures subject == "" ==> r == fallback
    ensures subject != "" ==> var h := Head(Head(subject, '—'), ',');
                              r == if h == "" then fallback else h
  {
    assert BeforeFirst(fallback, '—') == fallback;
    TrimFixed(fallback);
    assert BeforeFirst(fallback, ',') == fallback;
    var b := Head(Head(if subject == "" then fallback else subject, '—'), ',');
    if |b| == 0 then fallback else b
  }

  /** The subject bucket: the text before the first em dash, trimmed, then
      before the first comma, trimmed; "Unknown" when nothing is left. */
  function SubjectKey(subject: string): (r: string)
    ensures GoodKey(r)
    ensures var h := Head(Head(subject, '—'), ',');
            (subject == "" || h == "" ==> r == "Unknown") && (subject != "" && h != "" ==> r == h)
  {
    Bucket(subject, "Unknown")
  }

  function SubjectKeys(ms: seq<Merged>): (r: seq<string>)
    ensures |r| == |ms|
    ensures forall i :: 0 <= i < |r| ==> r[i] == SubjectKey(ms[i].subject)
  {
    seq(|ms|, i requires 0 <= i < |ms| => SubjectKey(ms[i].subject))
  }

  function Providers(ms: seq<Merged>): (r: seq<string>)
    ensures |r| == |ms|
    ensures forall i :: 0 <= i < |r| ==> r[i] == ms[i].provider
  {
    seq(|ms|, i requires 0 <= i < |ms| => ms[i].provider)
  }

  // ---------------------------------------------------------------------------
  // overview

  const Day := 86400000

  datatype OverviewSummary = OverviewSummary(
    totalUsers: nat, confirmedUsers: nat, activeToday: nat, activeWeek: nat,
    totalQuestions: int, totalSessions: int)

  datatype Overview = Overview(
    summary: OverviewSummary, users: seq<Merged>, signupChart: seq<KeyCount>,
    subjects: seq<KeyCount>, providers: seq<KeyCount>)

  /** The summary counts of the merged records at time `now`: confirmed ≤
      total, active today ≤ active this week ≤ total. */
  function SummaryOf(ms: seq<Merged>, now: int, parse: string -> Option<int>): (r: OverviewSummary)
    ensures r.totalUsers == |ms|
    ensures r.confirmedUsers <= r.totalUsers
    ensures r.activeToday <= r.activeWeek <= r.totalUsers
  {
    CountActiveMonotone(ms, now, parse, Day, 7 * Day);
    OverviewSummary(|ms|, CountConfirmed(ms), CountActive(ms, now, parse, Day),
                    CountActive(ms, now, parse, 7 * Day), SumQuestions(ms), SumSessions(ms))
  }

  /** `s.slice(0, n)` */
  function FirstN(s: seq<KeyCount>, n: nat): (r: seq<KeyCount>)
    ensures |r| == if |s| < n then |s| else n
    ensures r == s[..|r|]
  {
    if |s| <= n then s else s[..n]
  }

  /** The sign-up entries by day, ascending. */
  function SignupsByDay(ms: seq<Merged>): (r: seq<KeyCount>)
    ensures SortedByKey(r)
    ensures multiset(r) == multiset(TallyOf(SignupDays(ms)))
  {
    SortByKey(TallyOf(SignupDays(ms)))
  }

  /** signupChart: the last 30 days of the ascending sign-up entries. */
  function SignupChart(ms: seq<Merged>): seq<KeyCount>
  {
    LastN(SignupsByDay(ms), 30)
  }

  /** subjects: the first 15 subject entries by descending count. */
  function Subjects(ms: seq<Merged>): seq<KeyCount>
  {
    FirstN(SortByCount(TallyOf(SubjectKeys(ms))), 15)
  }

  /** The overview of the fetched rows at time `now`. */
  function OverviewOf(authUsers: seq<AuthUser>, users: seq<Profile>, stats: seq<StatRow>,
                      now: int, parse: string -> Option<int>): Overview
  {
    var merged := MergeAll(authUsers, users, stats);
    Overview(SummaryOf(merged, now, parse), merged, SignupChart(merged), Subjects(merged),
             TallyOf(Providers(merged)))
  }

  /** The overview computation, with its three forEach loops. */
  method ComputeOverview(authUsers: seq<AuthUser>, users: seq<Profile>, stats: seq<StatRow>,
                         now: int, parse: string -> Option<int>) returns (o: Overview)
    ensures o == OverviewOf(authUsers, users, stats, now, parse)
  {
    var merged := MergeAll(authUsers, users, stats);
    var summary := SummaryOf(merged, now, parse);
    var signupsByDay := Tally(SignupDays(merged));
    var subjectMap := Tally(SubjectKeys(merged));
    var providerMap := Tally(Providers(merged));
    o := Overview(summary, merged, LastN(SortByKey(signupsByDay), 30),
                  FirstN(SortByCount(subjectMap), 15), providerMap);
  }

  /** Every tallied key is one of the keys. */
  lemma {:induction false} TallyKeysFrom(keys: seq<string>)
    ensures forall i :: 0 <= i < |TallyOf(keys)| ==> TallyOf(keys)[i].key in keys
  {
    if |keys| > 0 {
      var pre := keys[..|keys| - 1];
      TallyKeysFrom(pre);
      var t := TallyOf(pre);
      forall i | 0 <= i < |TallyOf(keys)|
        ensures TallyOf(keys)[i].key in keys
      {
        if TallyOf(keys)[i].key != keys[|keys| - 1] {
          assert i < |t| && TallyOf(keys)[i] == t[i];
          assert t[i].key in pre;
        }
      }
    }
  }

  /** The sign-up chart: ascending by day, at most 30 entries, the latest
      days (every day left out comes before every day shown), each day the
      first ten characters of some record's `created_at`. */
  lemma SignupChartShape(ms: seq<Merged>)
    ensures var all := SignupsByDay(ms);
            var chart := SignupChart(ms);
            && SortedByKey(chart)
            && |chart| <= 30
            && chart == all[|all| - |chart|..]
            && (forall i, j :: 0 <= i < |all| - |chart| <= j < |all| ==> LexLe(all[i].key, all[j].key))
            && (forall i :: 0 <= i < |chart| ==> |chart[i].key| <= 10 && SignupOn(ms, chart[i].key))
  {
    var days := SignupDays(ms);
    var t := TallyOf(days);
    var all := SignupsByDay(ms);
    var chart := SignupChart(ms);
    TallyKeysFrom(days);
    forall i | 0 <= i < |chart|
      ensures |chart[i].key| <= 10 && SignupOn(ms, chart[i].key)
    {
      var x := all[|all| - |chart| + i];
      assert x == chart[i];
      assert x in multiset(t);
      var j :| 0 <= j < |t| && t[j] == x;
      assert x.key in days;
    }
  }

  /** The subjects: at most 15, non-increasing by count; before the cut every
      bucket is counted once with its number of users, and the counts sum
      to the number of users. */
  lemma SubjectsShape(ms: seq<Merged>)
    ensures |Subjects(ms)| <= 15
    ensures SortedByCount(Subjects(ms))
    ensures WellFormed(TallyOf(SubjectKeys(ms)))
    ensures Total(TallyOf(SubjectKeys(ms))) == |ms|
    ensures forall k :: CountOf(TallyOf(SubjectKeys(ms)), k) == Occurrences(SubjectKeys(ms), k)
  {
    var keys := SubjectKeys(ms);
    TallyCorrect(keys);
    FirstSorted(SortByCount(TallyOf(keys)), 15);
  }

  /** A prefix of a list sorted by count is sorted by count. */
  lemma FirstSorted(s: seq<KeyCount>, n: nat)
    requires SortedByCount(s)
    ensures SortedByCount(FirstN(s, n))
  {
  }

  /** The providers: one entry per provider, counts summing to the number of users. */
  lemma ProvidersShape(ms: seq<Merged>)
    ensures WellFormed(TallyOf(Providers(ms)))
    ensures Total(TallyOf(Providers(ms))) == |ms|
    ensures forall k :: CountOf(TallyOf(Providers(ms)), k) == Occurrences(Providers(ms), k)
  {
    TallyCorrect(Providers(ms));
  }

  // ---------------------------------------------------------------------------
  // The handler

  /** The request: its method and the body fields (None when absent or not a string). */
  datatype AdminRequest = AdminRequest(
    httpMethod: string, password: Option<string>, action: Option<string>, userId: Option<string>)

  /** ADMIN_PASSWORD, SUPABASE_URL, SUPABASE_SERVICE_KEY */
  datatype Env = Env(adminPassword: Option<string>, supabaseUrl: Option<string>, serviceKey: Option<string>)

  /** The Supabase calls the handler makes. */
  datatype Fetch = FetchUsers | FetchStats | FetchAuthUsers | DeleteAuthUser(userId: string)

  /** The Supabase replies, already defaulted (a failed read is an empty list). */
  datatype Replies = Replies(
    authUsers: seq<AuthUser>, users: seq<Profile>, stats: seq<StatRow>, deleteOk: bool)

  datatype AdminReply =
    | Preflight
    | MethodNotAllowed
    | Unauthorized
    | NotConfigured
    | OverviewReply(overview: Overview)
    | UserIdRequired
    | Deleted(ok: bool)
    | UnknownAction

  /** The password gate: an unset or empty ADMIN_PASSWORD refuses everyone. */
  predicate Authorised(req: AdminRequest, env: Env)
  {
    Truthy(env.adminPassword) && req.password == env.adminPassword
  }

  /** The handler: its reply and the fetches it issued, in order. */
  function Handle(req: AdminRequest, env: Env, replies: Replies, now: int, parse: string -> Option<int>)
    : (r: (AdminReply, seq<Fetch>))
    ensures req.httpMethod == "POST" && !Authorised(req, env) ==> r == (Unauthorized, [])
    ensures r.1 != [] ==> req.httpMethod == "POST" && Authorised(req, env)
                          && Truthy(env.supabaseUrl) && Truthy(env.serviceKey)
    ensures r.0.OverviewReply? <==>
              req.httpMethod == "POST" && Authorised(req, env) && Truthy(env.supabaseUrl)
              && Truthy(env.serviceKey) && req.action == Some("overview")
  {
    if req.httpMethod == "OPTIONS" then (Preflight, [])
    else if req.httpMethod != "POST" then (MethodNotAllowed, [])
    else if !Authorised(req, env) then (Unauthorized, [])
    else if !Truthy(env.supabaseUrl) || !Truthy(env.serviceKey) then (NotConfigured, [])
    else if req.action == Some("overview") then
      (OverviewReply(OverviewOf(replies.authUsers, replies.users, replies.stats, now, parse)),
       [FetchUsers, FetchStats, FetchAuthUsers])
    else if req.action == Some("delete_user") then
      if !Truthy(req.userId) then (UserIdRequired, [])
      else (Deleted(replies.deleteOk), [DeleteAuthUser(req.userId.value)])
    else (UnknownAction, [])
  }
}
