/** api/odds/odds.js: fetch pre-match odds from The Odds API, normalise each
    event's bookmaker markets into a table keyed by market, and cache the
    normalised result per (sport, markets, regions) for 30 minutes.
    The network reply and the clock are parameters. */
module OddsFeed {
  import opened Common

  /** A decimal price; decimal odds are never below 1.0. */
  type Odds = p: real | 1.0 <= p witness 1.0

  /** An outcome as the API sends it and as the table keeps it:
      `{ name, point, price }`; `point` is absent from BTTS outcomes. */
  datatype Outcome = Outcome(name: string, point: Option<real>, price: Odds)

  datatype ApiMarket = ApiMarket(key: string, outcomes: seq<Outcome>)

  /** A missing `markets` list is the empty list. */
  datatype ApiBookmaker = ApiBookmaker(title: string, markets: seq<ApiMarket>)

  /** A missing `bookmakers` list is the empty list. */
  datatype ApiEvent = ApiEvent(
    id: string, commenceTime: string, homeTeam: string, awayTeam: string,
    sportKey: string, bookmakers: seq<ApiBookmaker>)

  /** One bookmaker's offer for one market. */
  datatype BookmakerMarket = BookmakerMarket(bookmaker: string, outcomes: seq<Outcome>)

  /** The normalised event the engines consume. */
  datatype OddsEvent = OddsEvent(
    oddsEventId: string, commenceTime: string, homeTeam: string, awayTeam: string,
    sport: string, markets: map<string, seq<BookmakerMarket>>)

  // ---------------------------------------------------------------------------
  // Normalisation

  /** The market keys a bookmaker's market list mentions. */
  function KeysIn(ms: seq<ApiMarket>): set<string>
  {
    if |ms| == 0 then {} else KeysIn(ms[..|ms| - 1]) + {ms[|ms| - 1].key}
  }

  /** The market keys any bookmaker mentions. */
  function Keys(bs: seq<ApiBookmaker>): set<string>
  {
    if |bs| == 0 then {} else Keys(bs[..|bs| - 1]) + KeysIn(bs[|bs| - 1].markets)
  }

  /** The entries bookmaker b contributes under key k, from markets ms, in order. */
  function EntriesIn(b: ApiBookmaker, ms: seq<ApiMarket>, k: string): seq<BookmakerMarket>
  {
    if |ms| == 0 then []
    else EntriesIn(b, ms[..|ms| - 1], k)
         + (if ms[|ms| - 1].key == k then [BookmakerMarket(b.title, ms[|ms| - 1].outcomes)] else [])
  }

  /** The entries under key k: one per bookmaker market with that key,
      bookmaker by bookmaker, in order. */
  function Entries(bs: seq<ApiBookmaker>, k: string): seq<BookmakerMarket>
  {
    if |bs| == 0 then [] else Entries(bs[..|bs| - 1], k) + EntriesIn(bs[|bs| - 1], bs[|bs| - 1].markets, k)
  }

  /** The market table of a normalised event. */
  function MarketTable(bs: seq<ApiBookmaker>): map<string, seq<BookmakerMarket>>
  {
    map k | k in Keys(bs) :: Entries(bs, k)
  }

  /** The normalised form of one API event. */
  function Normalised(ev: ApiEvent): OddsEvent
  {
    OddsEvent(ev.id, ev.commenceTime, ev.homeTeam, ev.awayTeam, ev.sportKey, MarketTable(ev.bookmakers))
  }

  lemma {:induction false} EntriesInPresent(b: ApiBookmaker, ms: seq<ApiMarket>, k: string)
    ensures k in KeysIn(ms) <==> |EntriesIn(b, ms, k)| > 0
  {
    if |ms| > 0 {
      EntriesInPresent(b, ms[..|ms| - 1], k);
    }
  }

  lemma {:induction false} EntriesPresent(bs: seq<ApiBookmaker>, k: string)
    ensures k in Keys(bs) <==> |Entries(bs, k)| > 0
  {
    if |bs| > 0 {
      EntriesPresent(bs[..|bs| - 1], k);
      EntriesInPresent(bs[|bs| - 1], bs[|bs| - 1].markets, k);
    }
  }

  /** Every list in a normalised market table is non-empty, and a key is
      in the table exactly when some bookmaker offers that market. */
  lemma NormalisedTableShape(ev: ApiEvent, k: string)
    ensures k in Normalised(ev).markets <==> k in Keys(ev.bookmakers)
    ensures k in Normalised(ev).markets ==> |Normalised(ev).markets[k]| > 0
  {
    EntriesPresent(ev.bookmakers, k);
  }

  /** The table after the first j markets of bookmaker b were added to t0. */
  ghost predicate AddedUpTo(t0: map<string, seq<BookmakerMarket>>, b: ApiBookmaker, j: int,
                      table: map<string, seq<BookmakerMarket>>)
    requires 0 <= j <= |b.markets|
  {
    && (forall k :: k in table <==> k in t0 || k in KeysIn(b.markets[..j]))
    && (forall k :: k in table ==>
          table[k] == (if k in t0 then t0[k] else []) + EntriesIn(b, b.markets[..j], k))
  }

  /** Adding market j keeps the loop invariant. */
  lemma AddStep(t0: map<string, seq<BookmakerMarket>>, b: ApiBookmaker, j: int,
                table: map<string, seq<BookmakerMarket>>)
    requires 0 <= j < |b.markets| && AddedUpTo(t0, b, j, table)
    ensures var m := b.markets[j];
            AddedUpTo(t0, b, j + 1,
                      table[m.key := (if m.key in table then table[m.key] else []) + [BookmakerMarket(b.title, m.outcomes)]])
  {
    assert b.markets[..j + 1][..j] == b.markets[..j];
    EntriesInPresent(b, b.markets[..j], b.markets[j].key);
  }

  /** The inner normalisation loop for one bookmaker: one entry is pushed onto
      `markets[key]` per market of that bookmaker. */
  method AddBookmaker(t0: map<string, seq<BookmakerMarket>>, b: ApiBookmaker)
    returns (table: map<string, seq<BookmakerMarket>>)
    ensures forall k :: k in table <==> k in t0 || k in KeysIn(b.markets)
    ensures forall k :: k in table ==>
              table[k] == (if k in t0 then t0[k] else []) + EntriesIn(b, b.markets, k)
  {
    table := t0;
    for j := 0 to |b.markets|
      invariant AddedUpTo(t0, b, j, table)
    {
      var market := b.markets[j];
      AddStep(t0, b, j, table);
      if market.key !in table {
        table := table[market.key := []];
      }
      table := table[market.key := table[market.key] + [BookmakerMarket(b.title, market.outcomes)]];
    }
    assert b.markets[..|b.markets|] == b.markets;
  }

  /** The normalisation loop over the bookmakers of one event. */
  method NormaliseEvent(ev: ApiEvent) returns (n: OddsEvent)
    ensures n == Normalised(ev)
  {
    var table: map<string, seq<BookmakerMarket>> := map[];
    var bs := ev.bookmakers;
    for i := 0 to |bs|
      invariant forall k :: k in table <==> k in Keys(bs[..i])
      invariant forall k :: k in table ==> table[k] == Entries(bs[..i], k)
    {
      assert bs[..i + 1][..i] == bs[..i];
      ghost var before := table;
      table := AddBookmaker(table, bs[i]);
      forall k | k in table
        ensures table[k] == Entries(bs[..i + 1], k)
      {
        if k !in before {
          EntriesPresent(bs[..i], k);
        }
      }
    }
    assert bs[..|bs|] == bs;
    n := OddsEvent(ev.id, ev.commenceTime, ev.homeTeam, ev.awayTeam, ev.sportKey, table);
  }

  /** `data.map(normaliseEvent)` */
  function AllNormalised(events: seq<ApiEvent>): (r: seq<OddsEvent>)
    ensures |r| == |events|
    ensures forall i :: 0 <= i < |events| ==> r[i] == Normalised(events[i])
  {
    seq(|events|, i requires 0 <= i < |events| => Normalised(events[i]))
  }

  method NormaliseEvents(events: seq<ApiEvent>) returns (odds: seq<OddsEvent>)
    ensures odds == AllNormalised(events)
  {
    odds := [];
    for i := 0 to |events|
      invariant |odds| == i
      invariant forall j :: 0 <= j < i ==> odds[j] == Normalised(events[j])
    {
      var normalised := NormaliseEvent(events[i]);
      odds := odds + [normalised];
    }
  }

  // ---------------------------------------------------------------------------
  // The handler and its cache

  /** 30 minutes, in milliseconds. */
  const CacheTtlMs := 30 * 60 * 1000

  /** The query string; an absent parameter is None. */
  datatype OddsQuery = OddsQuery(sport: Option<string>, markets: Option<string>, regions: Option<string>)

  function SportOf(q: OddsQuery): string { OrElse(q.sport, "soccer_epl") }

  /** `${sport}__${markets}__${regions}`, with the query's defaults. */
  function CacheKey(q: OddsQuery): string
  {
    SportOf(q) + "__" + OrElse(q.markets, "totals,btts") + "__" + OrElse(q.regions, "eu")
  }

  /** What The Odds API answers; `response.json()` may fail or yield null. */
  datatype ReplyBody = Unreadable | NullBody | Events(events: seq<ApiEvent>)

  datatype FetchResult =
    | NetworkError(message: string)
    | Reply(status: int, body: ReplyBody, remaining: Option<string>, used: Option<string>)

  datatype OddsResult = OddsResult(odds: seq<OddsEvent>, remaining: Option<string>, used: Option<string>, sport: string)

  datatype CacheEntry = CacheEntry(ts: int, data: OddsResult)

  datatype MockReason = NoApiKey | InvalidApiKey | UnknownSport(sport: string) | BadStatus(status: int) | FetchFailed

  datatype OddsResponse =
    | Preflight                      // OPTIONS: 200 with no body
    | Mock(reason: MockReason)       // 200 with `odds: []`, `mock: true`
    | Fresh(result: OddsResult)      // a new result from the API
    | FromCache(result: OddsResult)  // the stored result, with `cached: true`

  /** An API key is configured when the variable is set and non-empty. */
  predicate KeySet(apiKey: Option<string>) { apiKey.Some? && apiKey.value != "" }

  predicate Hit(cache: map<string, CacheEntry>, key: string, now: int)
  {
    key in cache && now - cache[key].ts < CacheTtlMs
  }

  predicate OkStatus(status: int) { 200 <= status < 300 }

  /** The handler for one request on a cache: the response and the new cache.
      `now` is read before the lookup, `storedAt` when the result is stored. */
  function OddsHandler(cache: map<string, CacheEntry>, verb: string, apiKey: Option<string>,
                       q: OddsQuery, now: int, fetch: FetchResult, storedAt: int)
    : (r: (OddsResponse, map<string, CacheEntry>))
    ensures verb == "OPTIONS" ==> r == (Preflight, cache)
    ensures verb != "OPTIONS" && !KeySet(apiKey) ==> r == (Mock(NoApiKey), cache)
    ensures r.0.FromCache? <==> verb != "OPTIONS" && KeySet(apiKey) && Hit(cache, CacheKey(q), now)
    ensures r.0.FromCache? ==> r.0.result == cache[CacheKey(q)].data && r.1 == cache
    ensures r.0.Fresh? <==>
              && verb != "OPTIONS" && KeySet(apiKey) && !Hit(cache, CacheKey(q), now)
              && fetch.Reply? && fetch.status != 401 && fetch.status != 422
              && OkStatus(fetch.status) && !fetch.body.Unreadable?
    ensures r.0.Fresh? ==> r.1 == cache[CacheKey(q) := CacheEntry(storedAt, r.0.result)]
    ensures !r.0.Fresh? ==> r.1 == cache
  {
    if verb == "OPTIONS" then (Preflight, cache)
    else if !KeySet(apiKey) then (Mock(NoApiKey), cache)
    else
      var key := CacheKey(q);
      if Hit(cache, key, now) then (FromCache(cache[key].data), cache)
      else match fetch
        case NetworkError(_) => (Mock(FetchFailed), cache)
        case Reply(status, body, remaining, used) =>
          if status == 401 then (Mock(InvalidApiKey), cache)
          else if status == 422 then (Mock(UnknownSport(SportOf(q))), cache)
          else if !OkStatus(status) then (Mock(BadStatus(status)), cache)
          else match body
            case Unreadable => (Mock(FetchFailed), cache)
            case NullBody =>
              var result := OddsResult([], remaining, used, SportOf(q));
              (Fresh(result), cache[key := CacheEntry(storedAt, result)])
            case Events(events) =>
              var result := OddsResult(AllNormalised(events), remaining, used, SportOf(q));
              (Fresh(result), cache[key := CacheEntry(storedAt, result)])
  }

  /** A fresh result is what the next request with the same query gets,
      as long as it comes within the TTL of the store. */
  lemma StoredResultIsServed(cache: map<string, CacheEntry>, verb: string, apiKey: Option<string>,
                             q: OddsQuery, now: int, fetch: FetchResult, storedAt: int,
                             verb2: string, now2: int, fetch2: FetchResult, storedAt2: int)
    requires OddsHandler(cache, verb, apiKey, q, now, fetch, storedAt).0.Fresh?
    requires verb2 != "OPTIONS" && now2 - storedAt < CacheTtlMs
    ensures var r := OddsHandler(cache, verb, apiKey, q, now, fetch, storedAt);
            OddsHandler(r.1, verb2, apiKey, q, now2, fetch2, storedAt2) == (FromCache(r.0.result), r.1)
  {
  }

  /** The module-level `cache` object of the handler. */
  class OddsService {
    var cache: map<string, CacheEntry>

    constructor ()
      ensures cache == map[]
    {
      cache := map[];
    }

    method Handle(verb: string, apiKey: Option<string>, q: OddsQuery, now: int,
                  fetch: FetchResult, storedAt: int) returns (resp: OddsResponse)
      modifies this
      ensures (resp, cache) == OddsHandler(old(cache), verb, apiKey, q, now, fetch, storedAt)
    {
      if verb == "OPTIONS" { return Preflight; }
      if !KeySet(apiKey) { return Mock(NoApiKey); }
      var sport := OrElse(q.sport, "soccer_epl");
      var cacheKey := CacheKey(q);
      if cacheKey in cache && now - cache[cacheKey].ts < CacheTtlMs {
        return FromCache(cache[cacheKey].data);
      }
      if fetch.NetworkError? { return Mock(FetchFailed); }
      if fetch.status == 401 { return Mock(InvalidApiKey); }
      if fetch.status == 422 { return Mock(UnknownSport(sport)); }
      if !OkStatus(fetch.status) { return Mock(BadStatus(fetch.status)); }
      if fetch.body.Unreadable? { return Mock(FetchFailed); }
      var data := if fetch.body.Events? then fetch.body.events else [];
      var odds := NormaliseEvents(data);
      var result := OddsResult(odds, fetch.remaining, fetch.used, sport);
      cache := cache[cacheKey := CacheEntry(storedAt, result)];
      resp := Fresh(result);
    }
  }
}
