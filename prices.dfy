/** The price collection both median extractors share (extractBestOdds in the
    engine and extractMarketOdds in the odds-key map): gather the Over/Yes
    prices quoted at the requested line, sort them in place, read the median. */
module Prices {
  import opened Common
  import opened OddsFeed

  /** "Over" or "Yes": the side of a totals or BTTS market that is priced. */
  predicate IsTarget(o: Outcome)
  {
    o.name == "Over" || o.name == "Yes"
  }

  /** The line test: no line asked for, the same line, or no line on the outcome. */
  predicate LineOk(o: Outcome, line: Option<real>)
  {
    line.None? || o.point == line || o.point.None?
  }

  /** A market key and an optional Over line: what a market id asks the odds for. */
  datatype OddsParams = OddsParams(key: string, line: Option<real>)

  predicate Wanted(o: Outcome, line: Option<real>)
  {
    IsTarget(o) && LineOk(o, line)
  }

  /** The wanted prices of one bookmaker's outcomes, in order. */
  function OutcomePrices(os: seq<Outcome>, line: Option<real>): seq<Odds>
  {
    if |os| == 0 then []
    else OutcomePrices(os[..|os| - 1], line)
         + (if Wanted(os[|os| - 1], line) then [os[|os| - 1].price] else [])
  }

  /** The wanted prices of a market, bookmaker by bookmaker, in order. */
  function CollectPrices(bms: seq<BookmakerMarket>, line: Option<real>): seq<Odds>
  {
    if |bms| == 0 then []
    else CollectPrices(bms[..|bms| - 1], line) + OutcomePrices(bms[|bms| - 1].outcomes, line)
  }

  /** A price is collected exactly when some wanted outcome quotes it. */
  lemma {:induction false} OutcomePricesOrigin(os: seq<Outcome>, line: Option<real>, x: real)
    ensures x in OutcomePrices(os, line) <==> exists o :: o in os && Wanted(o, line) && o.price == x
  {
    if |os| > 0 {
      var last := os[|os| - 1];
      OutcomePricesOrigin(os[..|os| - 1], line, x);
      assert os == os[..|os| - 1] + [last];
      if x in OutcomePrices(os, line) && x !in OutcomePrices(os[..|os| - 1], line) {
        assert last in os && Wanted(last, line) && last.price == x;
      }
    }
  }

  lemma {:induction false} CollectPricesOrigin(bms: seq<BookmakerMarket>, line: Option<real>, x: real)
    ensures x in CollectPrices(bms, line) <==>
            exists b, o :: b in bms && o in b.outcomes && Wanted(o, line) && o.price == x
  {
    if |bms| > 0 {
      var last := bms[|bms| - 1];
      CollectPricesOrigin(bms[..|bms| - 1], line, x);
      OutcomePricesOrigin(last.outcomes, line, x);
      assert bms == bms[..|bms| - 1] + [last];
      if x in CollectPrices(bms, line) && x !in CollectPrices(bms[..|bms| - 1], line) {
        var o :| o in last.outcomes && Wanted(o, line) && o.price == x;
        assert last in bms;
      }
    }
  }

  // ---------------------------------------------------------------------------
  // Sorting: `prices.sort((a, b) => a - b)`

  predicate Sorted(s: seq<real>)
  {
    forall i, j :: 0 <= i < j < |s| ==> s[i] <= s[j]
  }

  function Insert(x: Odds, s: seq<Odds>): (r: seq<Odds>)
    requires Sorted(s)
    ensures |r| == |s| + 1 && (r[0] == x || (|s| > 0 && r[0] == s[0]))
    ensures Sorted(r) && multiset(r) == multiset(s) + multiset{x}
  {
    if |s| == 0 then [x]
    else if x <= s[0] then [x] + s
    else
      var rest := Insert(x, s[1..]);
      assert s == [s[0]] + s[1..];
      assert s[0] <= rest[0];
      [s[0]] + rest
  }

  /** The ascending arrangement of a list of prices. */
  function SortPrices(s: seq<Odds>): (r: seq<Odds>)
    ensures Sorted(r) && multiset(r) == multiset(s) && |r| == |s|
  {
    if |s| == 0 then []
    else
      assert s == s[..|s| - 1] + [s[|s| - 1]];
      Insert(s[|s| - 1], SortPrices(s[..|s| - 1]))
  }

  /** The head of a sorted list is its least element. */
  lemma SortedHeadIsLeast(a: seq<real>, x: real)
    requires Sorted(a) && x in a
    ensures a[0] <= x
  {
    var i :| 0 <= i < |a| && a[i] == x;
  }

  /** Splitting off the head of a sorted list. */
  lemma SortedSplit(a: seq<real>)
    requires Sorted(a) && |a| > 0
    ensures Sorted(a[1..])
    ensures a == [a[0]] + a[1..]
    ensures multiset(a) == multiset{a[0]} + multiset(a[1..])
  {
    assert a == [a[0]] + a[1..];
  }

  /** A sorted arrangement of a multiset is unique. */
  lemma {:induction false} SortedUnique(a: seq<real>, b: seq<real>)
    requires Sorted(a) && Sorted(b) && multiset(a) == multiset(b)
    ensures a == b
  {
    if |a| == 0 {
      assert |multiset(b)| == 0;
    } else {
      assert |b| == |multiset(b)| == |multiset(a)| == |a|;
      assert a[0] in multiset(b) && b[0] in multiset(a);
      SortedHeadIsLeast(b, a[0]);
      SortedHeadIsLeast(a, b[0]);
      SortedSplit(a);
      SortedSplit(b);
      assert a[0] == b[0];
      assert multiset(a[1..]) == multiset(a) - multiset{a[0]};
      assert multiset(b[1..]) == multiset(b) - multiset{b[0]};
      SortedUnique(a[1..], b[1..]);
    }
  }

  predicate SortedPrefix(a: array<Odds>, n: int)
    reads a
    requires 0 <= n <= a.Length
  {
    forall k, l :: 0 <= k < l < n ==> a[k] <= a[l]
  }

  /** Sink a[i] into the sorted prefix a[..i] by swaps. */
  method SinkInto(a: array<Odds>, i: int)
    requires 0 <= i < a.Length && SortedPrefix(a, i)
    modifies a
    ensures SortedPrefix(a, i + 1)
    ensures multiset(a[..]) == multiset(old(a[..]))
  {
    var j := i;
    while j > 0 && a[j - 1] > a[j]
      invariant 0 <= j <= i
      invariant forall k, l :: 0 <= k < l <= i && k != j && l != j ==> a[k] <= a[l]
      invariant forall k :: j < k <= i ==> a[j] < a[k]
      invariant multiset(a[..]) == multiset(old(a[..]))
    {
      a[j - 1], a[j] := a[j], a[j - 1];
      j := j - 1;
    }
  }

  /** Insertion sort, in place. */
  method SortInPlace(a: array<Odds>)
    modifies a
    ensures Sorted(a[..]) && multiset(a[..]) == multiset(old(a[..]))
  {
    for i := 0 to a.Length
      invariant SortedPrefix(a, i)
      invariant multiset(a[..]) == multiset(old(a[..]))
    {
      SinkInto(a, i);
    }
  }

  // ---------------------------------------------------------------------------
  // The median and the extremes of a sorted list

  /** `Math.max(...s)` */
  function MaxOf(s: seq<real>): (r: real)
    requires |s| > 0
    ensures r in s
    ensures forall i :: 0 <= i < |s| ==> s[i] <= r
  {
    if |s| == 1 then s[0]
    else
      var m := MaxOf(s[..|s| - 1]);
      if s[|s| - 1] > m then s[|s| - 1] else m
  }

  /** `Math.min(...s)` */
  function MinOf(s: seq<real>): (r: real)
    requires |s| > 0
    ensures r in s
    ensures forall i :: 0 <= i < |s| ==> r <= s[i]
  {
    if |s| == 1 then s[0]
    else
      var m := MinOf(s[..|s| - 1]);
      if s[|s| - 1] < m then s[|s| - 1] else m
  }

  /** Sorting keeps the highest and the lowest price. */
  lemma ExtremesOfSorted(prices: seq<Odds>)
    requires |prices| > 0
    ensures |SortPrices(prices)| > 0
    ensures MaxOf(SortPrices(prices)) == MaxOf(prices)
    ensures MinOf(SortPrices(prices)) == MinOf(prices)
  {
    var s := SortPrices(prices);
    assert MaxOf(prices) in multiset(s) && MinOf(prices) in multiset(s);
    assert MaxOf(s) in multiset(prices) && MinOf(s) in multiset(prices);
    var i :| 0 <= i < |s| && s[i] == MaxOf(prices);
    var j :| 0 <= j < |prices| && prices[j] == MaxOf(s);
    var k :| 0 <= k < |s| && s[k] == MinOf(prices);
    var l :| 0 <= l < |prices| && prices[l] == MinOf(s);
  }

  /** `sorted[Math.floor(sorted.length / 2)]`: the upper median. */
  function Median(sorted: seq<Odds>): Odds
    requires |sorted| > 0
  {
    sorted[|sorted| / 2]
  }

  /** The median of the sorted prices is one of the prices and lies between
      the lowest and the highest of them. */
  lemma MedianBetween(prices: seq<Odds>)
    requires |prices| > 0
    ensures |SortPrices(prices)| == |prices|
    ensures Median(SortPrices(prices)) in prices
    ensures MinOf(prices) <= Median(SortPrices(prices)) <= MaxOf(prices)
  {
    var s := SortPrices(prices);
    assert |s| == |multiset(s)| == |multiset(prices)| == |prices|;
    assert Median(s) in multiset(prices);
    assert MinOf(prices) in multiset(s) && MaxOf(prices) in multiset(s);
    var lo :| 0 <= lo < |s| && s[lo] == MinOf(prices);
    var hi :| 0 <= hi < |s| && s[hi] == MaxOf(prices);
    assert s[0] in multiset(prices) && s[|s| - 1] in multiset(prices);
    assert s[0] <= s[lo] && s[|s| / 2] <= s[|s| - 1] <= s[hi];
  }

  /** `Math.round((1 / median) * 100)`: the market's implied percentage. */
  function ImpliedProb(median: Odds): (r: int)
    ensures 0 <= r <= 100
  {
    assert 0.0 < 1.0 / median <= 1.0;
    Round((1.0 / median) * 100.0)
  }

  /** A longer price implies a lower (or equal) chance. */
  lemma ImpliedProbAntitone(lo: Odds, hi: Odds)
    requires lo <= hi
    ensures ImpliedProb(hi) <= ImpliedProb(lo)
  {
    assert 1.0 / hi <= 1.0 / lo;
    RoundMonotone((1.0 / hi) * 100.0, (1.0 / lo) * 100.0);
  }

  // ---------------------------------------------------------------------------
  // The loops

  /** The nested collection loop, pushing one wanted price at a time. */
  method CollectTargetPrices(bms: seq<BookmakerMarket>, line: Option<real>) returns (prices: seq<Odds>)
    ensures prices == CollectPrices(bms, line)
  {
    prices := [];
    for i := 0 to |bms|
      invariant prices == CollectPrices(bms[..i], line)
    {
      var outcomes := bms[i].outcomes;
      assert bms[..i + 1][..i] == bms[..i];
      for j := 0 to |outcomes|
        invariant prices == CollectPrices(bms[..i], line) + OutcomePrices(outcomes[..j], line)
      {
        assert outcomes[..j + 1][..j] == outcomes[..j];
        if Wanted(outcomes[j], line) {
          prices := prices + [outcomes[j].price];
        }
      }
      assert outcomes[..|outcomes|] == outcomes;
    }
    assert bms[..|bms|] == bms;
  }

  /** The sort of both extractors: copy the prices into an array and sort it in place. */
  method SortedCopy(prices: seq<Odds>) returns (sorted: seq<Odds>)
    ensures sorted == SortPrices(prices)
  {
    var a := new Odds[|prices|](i requires 0 <= i < |prices| => prices[i]);
    assert a[..] == prices;
    SortInPlace(a);
    sorted := a[..];
    SortedUnique(sorted, SortPrices(prices));
  }
}
