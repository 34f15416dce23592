/** src/app/api/lottery/prefetch/route.ts: scrape the results of the last few days
    and keep them in a key-value cache.

    The cache is a map from `lottery:<DD-MM-YYYY>:<region>` to the record stored
    under it; a value is written only through `setex`, as the JSON text of a
    non-empty record, so a key is present exactly when `get` returns a non-empty
    string. Redis failures are per-key flags, the calendar is a function from the
    day offset to (day of month, zero-based month, year), and the network is an
    oracle from source URL to fetch outcome. */
module Prefetch {
  import opened Base
  import opened Text
  import opened Tokens
  import opened Results
  import opened Lottery

  /** `regionKey`, and the region path in the source URLs. */
  function RegionKey(region: string): (k: string)
    ensures k in ["mien-bac", "mien-trung", "mien-nam"]
    ensures k == "mien-bac" <==> region == "bac"
    ensures k == "mien-trung" <==> region == "trung"
  {
    if region == "bac" then "mien-bac" else if region == "trung" then "mien-trung" else "mien-nam"
  }

  /** `regionName`. */
  function RegionTitle(region: string): string
  {
    if region == "bac" then "Miền Bắc" else if region == "trung" then "Miền Trung" else "Miền Nam"
  }

  /** `unique`: the digit groups found between a `>` and a `<`, stripped of the
      delimiters and white space, each once, in the order first seen. */
  function UniqueTokens(html: string): (u: seq<string>)
    ensures Distinct(u)
    ensures forall t :: t in u ==> AllDigits(t) && 2 <= |t| <= 6
  {
    Dedupe(Filter(TagTokens(html), (n: string) => 2 <= |n| <= 6))
  }

  /** The tokens of `unique` with exactly `n` digits (`six`, `five`, ...). */
  function Bucket(u: seq<string>, n: nat): seq<string>
  {
    Filter(u, (t: string) => |t| == n)
  }

  /** The nine tiers of the record, laid out as a southern draw. */
  function Prizes(u: seq<string>): seq<(string, seq<string>)>
  {
    var six, five, four, three, two := Bucket(u, 6), Bucket(u, 5), Bucket(u, 4), Bucket(u, 3), Bucket(u, 2);
    [ ("DB", if |six| > 0 then Slice(six, 0, 1) else Slice(five, 0, 1)),
      ("G1", Slice(five, 0, 1)),
      ("G2", Slice(five, 1, 2)),
      ("G3", Slice(five, 2, 4)),
      ("G4", Slice(five, 4, 11)),
      ("G5", Slice(four, 0, 1)),
      ("G6", Slice(four, 1, 4)),
      ("G7", Slice(three, 0, 1)),
      ("G8", Slice(two, 0, 1)) ]
  }

  /** `parseHTML(html, dateStr, region)`. */
  function ParseHTML(html: string, dateStr: string, region: string): (r: ResultSet)
    ensures r == [] <==> |UniqueTokens(html)| < 15
    ensures r != [] ==> |r| == 1 && r[0].0 == RegionKey(region)
                        && r[0].1.date == dateStr
                        && r[0].1.region == (if region == "" then "nam" else region)
                        && r[0].1.prizes == Prizes(UniqueTokens(html))
  {
    var u := UniqueTokens(html);
    if |u| >= 15 then
      [(RegionKey(region), LotteryResult(RegionTitle(region), if region == "" then "nam" else region, dateStr, Prizes(u)))]
    else
      []
  }

  /** The tokens of `unique` are exactly the 2-to-6 digit groups standing between
      a `>` and a `<` somewhere in the page. */
  lemma UniqueTokensExact(html: string, t: string)
    ensures t in UniqueTokens(html) <==>
      AllDigits(t) && 2 <= |t| <= 6 && exists q :: TagDelimited(html, q, t)
  {
    TagTokensExact(html, t);
  }

  /** The length filter after the match changes nothing: every match already has
      between two and six digits. */
  lemma LengthFilterNoOp(html: string)
    ensures Filter(TagTokens(html), (n: string) => 2 <= |n| <= 6) == TagTokens(html)
  {
    FilterNoOp(TagTokens(html), (n: string) => 2 <= |n| <= 6);
  }

  /** Whatever the region, the record uses the nine tiers of the southern
      structure, `bac` included, whose own structure has eight. */
  lemma SouthernLayout(u: seq<string>)
    ensures KeysOf(Prizes(u)) == KeysOf(NamStructure) == TierKeys
    ensures KeysOf(Prizes(u)) != KeysOf(BacStructure)
  {
    assert |KeysOf(BacStructure)| == 8;
  }

  /** Each tier holds at most as many tokens as the southern structure draws. */
  lemma TierSizes(u: seq<string>)
    ensures var p := Prizes(u);
      && |p[0].1| <= 1 && |p[1].1| <= 1 && |p[2].1| <= 1 && |p[3].1| <= 2 && |p[4].1| <= 7
      && |p[5].1| <= 1 && |p[6].1| <= 3 && |p[7].1| <= 1 && |p[8].1| <= 1
  {
  }

  /** Each tier holds tokens of the page of a single length: DB six digits, or
      five when it falls back, G1 to G4 five, G5 and G6 four, G7 three, G8 two. */
  lemma TierDigits(u: seq<string>)
    ensures var p := Prizes(u);
      && (forall t :: t in p[0].1 ==> t in u && (|t| == 6 || |t| == 5))
      && (forall t :: t in p[1].1 + p[2].1 + p[3].1 + p[4].1 ==> t in u && |t| == 5)
      && (forall t :: t in p[5].1 + p[6].1 ==> t in u && |t| == 4)
      && (forall t :: t in p[7].1 ==> t in u && |t| == 3)
      && (forall t :: t in p[8].1 ==> t in u && |t| == 2)
  {
    var six, five, four, three, two := Bucket(u, 6), Bucket(u, 5), Bucket(u, 4), Bucket(u, 3), Bucket(u, 2);
    var p := Prizes(u);
    assert p[0].1 == Slice(six, 0, 1) || p[0].1 == Slice(five, 0, 1);
    assert p[1].1 + p[2].1 + p[3].1 + p[4].1 == Slice(five, 0, 1) + Slice(five, 1, 2) + Slice(five, 2, 4) + Slice(five, 4, 11);
    assert p[5].1 + p[6].1 == Slice(four, 0, 1) + Slice(four, 1, 4);
    assert p[7].1 == Slice(three, 0, 1);
    assert p[8].1 == Slice(two, 0, 1);
    BucketSlice(u, 6, 0, 1);
    BucketSlice(u, 5, 0, 1);
    BucketSlice(u, 5, 1, 2);
    BucketSlice(u, 5, 2, 4);
    BucketSlice(u, 5, 4, 11);
    BucketSlice(u, 4, 0, 1);
    BucketSlice(u, 4, 1, 4);
    BucketSlice(u, 3, 0, 1);
    BucketSlice(u, 2, 0, 1);
  }

  lemma BucketSlice(u: seq<string>, n: nat, lo: nat, hi: nat)
    requires lo <= hi
    ensures forall t :: t in Slice(Bucket(u, n), lo, hi) ==> |t| == n && t in u
  {
    forall t | t in Slice(Bucket(u, n), lo, hi) ensures |t| == n && t in u {
      SliceMembers(Bucket(u, n), lo, hi, t);
    }
  }

  /** DB is the first six-digit token of the page. */
  lemma SpecialPrize(u: seq<string>)
    requires exists t :: t in u && |t| == 6
    ensures exists k :: 0 <= k < |u| && Prizes(u)[0].1 == [u[k]] && |u[k]| == 6
              && forall m :: 0 <= m < k ==> |u[m]| != 6
  {
    var six := Bucket(u, 6);
    var t :| t in u && |t| == 6;
    assert t in six;
    assert Prizes(u)[0].1 == Slice(six, 0, 1) == [six[0]];
    FilterFirst(u, (t: string) => |t| == 6);
  }

  /** Without a six-digit token DB falls back to the first five-digit one, which
      is then also G1. */
  lemma SpecialPrizeFallback(u: seq<string>)
    requires forall t :: t in u ==> |t| != 6
    ensures Prizes(u)[0].1 == Prizes(u)[1].1 == Slice(Bucket(u, 5), 0, 1)
  {
    FilterNone(u, (t: string) => |t| == 6);
    assert |Bucket(u, 6)| == 0;
  }

  /** G1 to G4 take disjoint windows of the five-digit tokens, and G5 and G6 of the
      four-digit ones, so no number is listed in two of these tiers. */
  lemma DisjointTiers(u: seq<string>)
    requires Distinct(u)
    ensures var p := Prizes(u);
      && (forall i, j, t :: 1 <= i < j <= 4 && t in p[i].1 ==> t !in p[j].1)
      && (forall t :: t in p[5].1 ==> t !in p[6].1)
  {
    var five, four := Bucket(u, 5), Bucket(u, 4);
    FilterDistinct(u, (t: string) => |t| == 5);
    FilterDistinct(u, (t: string) => |t| == 4);
    DisjointWindows(five, 0, 1, 1, 2);
    DisjointWindows(five, 0, 1, 2, 4);
    DisjointWindows(five, 0, 1, 4, 11);
    DisjointWindows(five, 1, 2, 2, 4);
    DisjointWindows(five, 1, 2, 4, 11);
    DisjointWindows(five, 2, 4, 4, 11);
    DisjointWindows(four, 0, 1, 1, 4);
  }

  /** The source URLs, built from the pieces of `dateStr.split('-')`. */
  function MinhNgocUrl(dateStr: string, region: string): string
  {
    "https://www.minhngoc.net.vn/ket-qua-xo-so/" + RegionKey(region) + "/" + DayMonthYear(dateStr) + ".html"
  }

  function KqxsUrl(dateStr: string, region: string): string
  {
    "https://kqxs.vn/xo-so-" + RegionKey(region) + "/" + DayMonthYear(dateStr)
  }

  /** The outcomes of the two sources, in the order they are tried. */
  function SourcesFor(dateStr: string, region: string, net: string -> FetchOutcome): seq<FetchOutcome>
  {
    [net(MinhNgocUrl(dateStr, region)), net(KqxsUrl(dateStr, region))]
  }

  /** What `fetchLotteryForDate` returns. */
  function FetchedFor(dateStr: string, region: string, net: string -> FetchOutcome): (r: ResultSet)
    ensures r == [] || (|r| == 1 && r[0].0 == RegionKey(region) && r[0].1.date == dateStr)
  {
    FirstNonEmpty(SourcesFor(dateStr, region, net), (html: string) => ParseHTML(html, dateStr, region))
  }

  /** `fetchLotteryForDate(dateStr, region, proxyUrl)`. */
  method FetchLotteryForDate(dateStr: string, region: string, net: string -> FetchOutcome) returns (r: ResultSet)
    ensures r == FetchedFor(dateStr, region, net)
  {
    r := TrySources(SourcesFor(dateStr, region, net), (html: string) => ParseHTML(html, dateStr, region));
  }

  /** A page reached through the first source wins whenever it holds at least 15
      distinct tagged numbers. */
  lemma FetchFirstWins(dateStr: string, region: string, net: string -> FetchOutcome)
    requires net(MinhNgocUrl(dateStr, region)).Body?
    requires |UniqueTokens(net(MinhNgocUrl(dateStr, region)).html)| >= 15
    ensures FetchedFor(dateStr, region, net) == ParseHTML(net(MinhNgocUrl(dateStr, region)).html, dateStr, region)
  {
    var parse := (html: string) => ParseHTML(html, dateStr, region);
    var sources := SourcesFor(dateStr, region, net);
    assert sources[0] == net(MinhNgocUrl(dateStr, region));
    assert parse(sources[0].html) != [];
    assert FirstNonEmpty(sources, parse) == parse(sources[0].html);
  }

  /** Nothing is fetched exactly when neither source gives a page with at least 15
      distinct tagged numbers. */
  lemma FetchNothing(dateStr: string, region: string, net: string -> FetchOutcome)
    ensures FetchedFor(dateStr, region, net) == [] <==>
      forall i :: 0 <= i < 2 ==> var o := SourcesFor(dateStr, region, net)[i];
                                 !o.Body? || |UniqueTokens(o.html)| < 15
  {
    var parse := (html: string) => ParseHTML(html, dateStr, region);
    var sources := SourcesFor(dateStr, region, net);
    forall i | 0 <= i < 2
      ensures Yields(sources[i], parse) <==> sources[i].Body? && |UniqueTokens(sources[i].html)| >= 15
    {
    }
  }

  datatype Status = Cached | Fetched | NoData | Error

  /** The status as the response spells it. */
  function StatusName(s: Status): string
  {
    match s
    case Cached => "cached"
    case Fetched => "fetched"
    case NoData => "no_data"
    case Error => "error"
  }

  datatype DayStatus = DayStatus(date: string, status: Status, count: nat)

  datatype Summary = Summary(total: nat, cached: nat, fetched: nat, noData: nat, errors: nat)

  /** The JSON response: 500 with `REDIS_URL not configured`, or success. */
  datatype Response = NotConfigured | Done(summary: Summary, results: seq<DayStatus>)

  /** The Redis client: whether `REDIS_URL` is set, and which keys make `get` or
      `setex` throw. */
  datatype Redis = Redis(configured: bool, getFails: string -> bool, setFails: string -> bool)

  type Cache = map<string, ResultSet>

  function CacheKey(dateStr: string, region: string): string
  {
    "lottery:" + dateStr + ":" + region
  }

  /** One iteration of the day loop: its status and the cache afterwards, where
      `data` is what `fetchLotteryForDate` returns for the day. */
  function DayStep(dateStr: string, region: string, cache: Cache, redis: Redis, data: ResultSet): (DayStatus, Cache)
  {
    var key := CacheKey(dateStr, region);
    if redis.getFails(key) then (DayStatus(dateStr, Error, 0), cache)
    else if key in cache then (DayStatus(dateStr, Cached, |cache[key]|), cache)
    else if data == [] then (DayStatus(dateStr, NoData, 0), cache)
    else if redis.setFails(key) then (DayStatus(dateStr, Error, 0), cache)
    else (DayStatus(dateStr, Fetched, |data|), cache[key := data])
  }

  /** The body of the day loop's `try` block and its `catch`. */
  method PrefetchDay(dateStr: string, region: string, cache: Cache, redis: Redis, net: string -> FetchOutcome)
    returns (status: DayStatus, cache': Cache)
    ensures (status, cache') == DayStep(dateStr, region, cache, redis, Fetcher(region, net)(dateStr))
  {
    assert Fetcher(region, net)(dateStr) == FetchedFor(dateStr, region, net);
    var cacheKey := CacheKey(dateStr, region);
    cache' := cache;
    if redis.getFails(cacheKey) {
      return DayStatus(dateStr, Error, 0), cache;
    }
    if cacheKey in cache {
      return DayStatus(dateStr, Cached, |cache[cacheKey]|), cache;
    }
    var data := FetchLotteryForDate(dateStr, region, net);
    if data != [] {
      if redis.setFails(cacheKey) {
        return DayStatus(dateStr, Error, 0), cache;
      }
      cache' := cache[cacheKey := data];
      status := DayStatus(dateStr, Fetched, |data|);
    } else {
      status := DayStatus(dateStr, NoData, 0);
    }
  }

  /** What `fetchLotteryForDate` can return for a region: nothing, or one record
      under the region's key. */
  ghost predicate FetchShape(fetch: string -> ResultSet, region: string)
  {
    forall d :: fetch(d) == [] || (|fetch(d)| == 1 && fetch(d)[0].0 == RegionKey(region))
  }

  /** `fetchLotteryForDate` as a function of the date string. */
  function Fetcher(region: string, net: string -> FetchOutcome): string -> ResultSet
  {
    (d: string) => FetchedFor(d, region, net)
  }

  /** `fetchLotteryForDate` returns nothing or one record under the region's key. */
  lemma FetcherShape(region: string, net: string -> FetchOutcome)
    ensures FetchShape(Fetcher(region, net), region)
  {
    forall d ensures Fetcher(region, net)(d) == [] || (|Fetcher(region, net)(d)| == 1 && Fetcher(region, net)(d)[0].0 == RegionKey(region)) {
      assert Fetcher(region, net)(d) == FetchedFor(d, region, net);
    }
  }

  /** One day pushes one status for its date; a fetched day counts the one
      record it stores, a day without data or with an error counts nothing. */
  lemma DayStepStatus(dateStr: string, region: string, cache: Cache, redis: Redis, data: ResultSet)
    requires data == [] || |data| == 1
    ensures var status := DayStep(dateStr, region, cache, redis, data).0;
      status.date == dateStr && CountFits(status)
  {
  }

  /** A day only adds to the cache: the one key it may write gets the fetched
      non-empty record, and every other entry is kept. */
  lemma DayStepCache(dateStr: string, region: string, cache: Cache, redis: Redis, data: ResultSet)
    ensures var cache' := DayStep(dateStr, region, cache, redis, data).1;
      && cache.Keys <= cache'.Keys
      && (forall k :: k in cache ==> cache'[k] == cache[k])
      && (forall k :: k in cache' && k !in cache ==> k == CacheKey(dateStr, region) && cache'[k] == data != [])
  {
  }

  function DateOf(calendar: nat -> (nat, nat, nat), i: nat): string
  {
    FormatDate(calendar(i).0, calendar(i).1, calendar(i).2)
  }

  /** The date string of every day offset. */
  function Dates(calendar: nat -> (nat, nat, nat)): nat -> string
  {
    (i: nat) => DateOf(calendar, i)
  }

  /** The statuses of the first `n` days and the cache after them. */
  function RunDays(n: nat, region: string, cache0: Cache, redis: Redis,
                   dateOf: nat -> string, fetch: string -> ResultSet): (seq<DayStatus>, Cache)
    decreases n
  {
    if n == 0 then ([], cache0)
    else
      var prev := RunDays(n - 1, region, cache0, redis, dateOf, fetch);
      var step := DayStep(dateOf(n - 1), region, prev.1, redis, fetch(dateOf(n - 1)));
      (prev.0 + [step.0], step.1)
  }

  function CountStatus(results: seq<DayStatus>, s: Status): nat
  {
    |Filter(results, (d: DayStatus) => d.status == s)|
  }

  function Summarize(results: seq<DayStatus>): Summary
  {
    Summary(|results|, CountStatus(results, Cached), CountStatus(results, Fetched),
            CountStatus(results, NoData), CountStatus(results, Error))
  }

  /** The effective number of days and region of a request. */
  function DayCount(days: int): nat
  {
    if days < 0 then 0 else days
  }

  function EffectiveRegion(region: string): string
  {
    if region == "" then "nam" else region
  }

  /** The response of `GET` and the cache afterwards. */
  function PrefetchResult(days: int, region: string, cache0: Cache, redis: Redis,
                          calendar: nat -> (nat, nat, nat), net: string -> FetchOutcome): (Response, Cache)
  {
    if !redis.configured then (NotConfigured, cache0)
    else
      var r := EffectiveRegion(region);
      var run := RunDays(DayCount(days), r, cache0, redis, Dates(calendar), Fetcher(r, net));
      (Done(Summarize(run.0), run.0), run.1)
  }

  /** `GET /api/lottery/prefetch?days=&region=`. */
  method Prefetch(days: int, regionParam: string, cache0: Cache, redis: Redis,
                  calendar: nat -> (nat, nat, nat), net: string -> FetchOutcome)
    returns (response: Response, cache: Cache)
    ensures (response, cache) == PrefetchResult(days, regionParam, cache0, redis, calendar, net)
  {
    if !redis.configured {
      return NotConfigured, cache0;
    }
    var region := if regionParam == "" then "nam" else regionParam;
    ghost var fetch := Fetcher(region, net);
    ghost var dates := Dates(calendar);
    var results: seq<DayStatus> := [];
    cache := cache0;
    var i := 0;
    while i < days
      invariant 0 <= i <= DayCount(days)
      invariant (results, cache) == RunDays(i, region, cache0, redis, dates, fetch)
    {
      var dateStr := DateOf(calendar, i);
      assert dateStr == dates(i);
      var status;
      status, cache := PrefetchDay(dateStr, region, cache, redis, net);
      results := results + [status];
      i := i + 1;
    }
    assert i == DayCount(days) && region == EffectiveRegion(regionParam);
    response := Done(Summarize(results), results);
  }

  /** Every status is one of the four, so the counts add up to the total. */
  lemma {:induction false} CountsAddUp(results: seq<DayStatus>)
    ensures CountStatus(results, Cached) + CountStatus(results, Fetched)
          + CountStatus(results, NoData) + CountStatus(results, Error) == |results|
    decreases |results|
  {
    if results != [] {
      CountsAddUp(results[1..]);
    }
  }

  /** A fetched day counts the one record it stores; a day without data or with
      an error counts nothing. */
  predicate CountFits(status: DayStatus)
  {
    && (status.status == Fetched ==> status.count == 1)
    && (status.status in {NoData, Error} ==> status.count == 0)
  }

  /** Each day pushes exactly one status, for its own date, with a fitting count. */
  lemma {:induction false} RunDaysStatuses(n: nat, region: string, cache0: Cache, redis: Redis,
                                           dateOf: nat -> string, fetch: string -> ResultSet)
    requires FetchShape(fetch, region)
    ensures var results := RunDays(n, region, cache0, redis, dateOf, fetch).0;
      && |results| == n
      && DayByDay(results, dateOf)
    decreases n
  {
    if n > 0 {
      var prev := RunDays(n - 1, region, cache0, redis, dateOf, fetch);
      var dateStr := dateOf(n - 1);
      var step := DayStep(dateStr, region, prev.1, redis, fetch(dateStr));
      RunDaysStatuses(n - 1, region, cache0, redis, dateOf, fetch);
      assert |prev.0| == n - 1;
      var results := RunDays(n, region, cache0, redis, dateOf, fetch).0;
      assert results == prev.0 + [step.0];
      assert fetch(dateStr) == [] || |fetch(dateStr)| == 1;
      DayStepStatus(dateStr, region, prev.1, redis, fetch(dateStr));
      StatusesAppend(prev.0, step.0, dateOf);
    }
  }

  /** The statuses of consecutive days, each for its own date with a fitting count. */
  predicate DayByDay(results: seq<DayStatus>, dateOf: nat -> string)
  {
    forall i :: 0 <= i < |results| ==> results[i].date == dateOf(i) && CountFits(results[i])
  }

  lemma StatusesAppend(prev: seq<DayStatus>, status: DayStatus, dateOf: nat -> string)
    requires DayByDay(prev, dateOf)
    requires status.date == dateOf(|prev|) && CountFits(status)
    ensures DayByDay(prev + [status], dateOf)
  {
    var results := prev + [status];
    forall i | 0 <= i < |results|
      ensures results[i].date == dateOf(i) && CountFits(results[i])
    {
      if i < |prev| {
        assert results[i] == prev[i];
      } else {
        assert results[i] == status;
      }
    }
  }

  /** `cache` extends `cache0`: entries present before are kept unchanged, and
      every entry added holds one record under the region's key. */
  predicate Extends(cache: Cache, cache0: Cache, region: string)
  {
    && cache0.Keys <= cache.Keys
    && (forall k :: k in cache0 ==> cache[k] == cache0[k])
    && (forall k :: k in cache && k !in cache0 ==> |cache[k]| == 1 && cache[k][0].0 == RegionKey(region))
  }

  /** A day with a well-shaped fetch result extends the cache. */
  lemma DayStepExtends(dateStr: string, region: string, cache: Cache, redis: Redis, data: ResultSet)
    requires data == [] || (|data| == 1 && data[0].0 == RegionKey(region))
    ensures Extends(DayStep(dateStr, region, cache, redis, data).1, cache, region)
  {
    DayStepCache(dateStr, region, cache, redis, data);
  }

  /** Extending an extension of `cache0` by one day extends `cache0`. */
  lemma ExtendsStep(cache0: Cache, cache: Cache, dateStr: string, region: string, redis: Redis, data: ResultSet)
    requires Extends(cache, cache0, region)
    requires data == [] || (|data| == 1 && data[0].0 == RegionKey(region))
    ensures Extends(DayStep(dateStr, region, cache, redis, data).1, cache0, region)
  {
    DayStepExtends(dateStr, region, cache, redis, data);
  }

  /** The cache only grows, and only by records of the requested region. */
  lemma {:induction false} RunDaysCache(n: nat, region: string, cache0: Cache, redis: Redis,
                                        dateOf: nat -> string, fetch: string -> ResultSet)
    requires FetchShape(fetch, region)
    ensures Extends(RunDays(n, region, cache0, redis, dateOf, fetch).1, cache0, region)
    decreases n
  {
    if n > 0 {
      var prev := RunDays(n - 1, region, cache0, redis, dateOf, fetch);
      var dateStr := dateOf(n - 1);
      var data := fetch(dateStr);
      var step := DayStep(dateStr, region, prev.1, redis, data);
      assert RunDays(n, region, cache0, redis, dateOf, fetch).1 == step.1;
      assert data == [] || (|data| == 1 && data[0].0 == RegionKey(region));
      RunDaysCache(n - 1, region, cache0, redis, dateOf, fetch);
      DayStepExtends(dateStr, region, prev.1, redis, data);
      ExtendsStep(cache0, prev.1, dateStr, region, redis, data);
    } else {
      assert RunDays(n, region, cache0, redis, dateOf, fetch).1 == cache0;
    }
  }

  /** A cached day is answered from the cache, whatever the network would give. */
  lemma CacheHitSkipsFetch(dateStr: string, region: string, cache: Cache, redis: Redis,
                           data1: ResultSet, data2: ResultSet)
    requires CacheKey(dateStr, region) in cache && !redis.getFails(CacheKey(dateStr, region))
    ensures DayStep(dateStr, region, cache, redis, data1) == DayStep(dateStr, region, cache, redis, data2)
    ensures DayStep(dateStr, region, cache, redis, data1).0.status == Cached
  {
  }

  /** The response: without Redis a 500 that leaves the cache alone; otherwise one
      status per requested day and a summary whose counts add up to the total,
      with the cache only grown by non-empty records. */
  lemma PrefetchResponse(days: int, region: string, cache0: Cache, redis: Redis,
                         calendar: nat -> (nat, nat, nat), net: string -> FetchOutcome)
    ensures var (response, cache) := PrefetchResult(days, region, cache0, redis, calendar, net);
      && (!redis.configured <==> response == NotConfigured)
      && (!redis.configured ==> cache == cache0)
      && (response.Done? ==>
            && |response.results| == DayCount(days)
            && response.summary.total == |response.results|
            && response.summary.cached + response.summary.fetched
               + response.summary.noData + response.summary.errors == response.summary.total)
      && cache0.Keys <= cache.Keys
      && (forall k :: k in cache && k !in cache0 ==> |cache[k]| == 1)
  {
    if redis.configured {
      var r := EffectiveRegion(region);
      var fetch := Fetcher(r, net);
      FetcherShape(r, net);
      var results := RunDays(DayCount(days), r, cache0, redis, Dates(calendar), fetch).0;
      RunDaysStatuses(DayCount(days), r, cache0, redis, Dates(calendar), fetch);
      RunDaysCache(DayCount(days), r, cache0, redis, Dates(calendar), fetch);
      CountsAddUp(results);
    }
  }
}
