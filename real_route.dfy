/** src/app/api/lottery/real/route.ts: results scraped from xoso.me, then from
    ketqua.net, cut into a southern and a northern record by token length.

    The page is split into word-bounded digit runs (`/\b\d{n}\b/g` for n = 6, 5,
    4, 3 and 2); each bucket is deduplicated in the order first seen and sliced
    into the tiers of the record. The network is an oracle from the source URL
    to the outcome of fetching it through the proxy. */
module RealRoute {
  import opened Base
  import opened Text
  import opened Tokens
  import opened Results

  /** `uniqueSpecial`, `uniqueFive`, `uniqueFour`, `uniqueThree`, `uniqueTwo`. */
  datatype Buckets = Buckets(six: seq<string>, five: seq<string>, four: seq<string>,
                             three: seq<string>, two: seq<string>)

  /** `[...new Set(html.match(/\b\d{n}\b/g) || [])]`. */
  function UniqueWords(html: string, n: nat): (u: seq<string>)
    ensures Distinct(u)
    ensures forall t :: t in u ==> AllDigits(t) && |t| == n
  {
    Dedupe(DigitWords(html, n, n))
  }

  function BucketsOf(html: string): Buckets
  {
    Buckets(UniqueWords(html, 6), UniqueWords(html, 5), UniqueWords(html, 4),
            UniqueWords(html, 3), UniqueWords(html, 2))
  }

  /** Each bucket lists distinct tokens of its own length. */
  predicate WellFormed(b: Buckets)
  {
    && Distinct(b.six) && Distinct(b.five) && Distinct(b.four)
    && Distinct(b.three) && Distinct(b.two)
    && (forall t :: t in b.six ==> |t| == 6)
    && (forall t :: t in b.five ==> |t| == 5)
    && (forall t :: t in b.four ==> |t| == 4)
    && (forall t :: t in b.three ==> |t| == 3)
    && (forall t :: t in b.two ==> |t| == 2)
  }

  /** The tiers of `mien-nam`. */
  function NamPrizes(b: Buckets): seq<(string, seq<string>)>
  {
    [ ("DB", Slice(b.six, 0, 3)),
      ("G1", Slice(b.five, 0, 3)),
      ("G2", Slice(b.five, 3, 6)),
      ("G3", Slice(b.five, 6, 12)),
      ("G4", Slice(b.five, 12, 33)),
      ("G5", Slice(b.four, 0, 3)),
      ("G6", Slice(b.four, 3, 12)),
      ("G7", Slice(b.three, 0, 3)),
      ("G8", Slice(b.two, 0, 3)) ]
  }

  /** The tiers of `mien-bac`. */
  function BacPrizes(b: Buckets): seq<(string, seq<string>)>
  {
    [ ("DB", if |Slice(b.six, 0, 1)| > 0 then Slice(b.six, 0, 1) else Slice(b.five, 0, 1)),
      ("G1", Slice(b.five, 1, 2)),
      ("G2", Slice(b.five, 2, 4)),
      ("G3", Slice(b.five, 4, 10)),
      ("G4", Slice(b.four, 0, 4)),
      ("G5", Slice(b.four, 4, 10)),
      ("G6", Slice(b.three, 0, 3)),
      ("G7", Slice(b.two, 0, 4)) ]
  }

  /** The record built from the buckets: `mien-nam` first, then `mien-bac`. */
  function ParseBuckets(b: Buckets, dateStr: string, region: string): (r: ResultSet)
    ensures "mien-nam" in KeysOf(r) <==> (region == "" || region == "nam") && |b.six| > 0
    ensures "mien-bac" in KeysOf(r) <==> (region == "" || region == "bac") && (|b.six| > 0 || |b.five| > 10)
    ensures forall i :: 0 <= i < |r| ==> r[i].0 in ["mien-nam", "mien-bac"] && r[i].1.date == dateStr
    ensures region != "" && region != "nam" && region != "bac" ==> r == []
    ensures forall i :: 0 <= i < |r| ==>
              && (r[i].0 == "mien-nam" ==> r[i].1.region == "nam" && r[i].1.prizes == NamPrizes(b))
              && (r[i].0 == "mien-bac" ==> r[i].1.region == "bac" && r[i].1.prizes == BacPrizes(b))
  {
    var nam := ("mien-nam", LotteryResult("Miền Nam", "nam", dateStr, NamPrizes(b)));
    var bac := ("mien-bac", LotteryResult("Miền Bắc", "bac", dateStr, BacPrizes(b)));
    var hasNam := (region == "" || region == "nam") && |b.six| > 0;
    var hasBac := (region == "" || region == "bac") && (|b.six| > 0 || |b.five| > 10);
    if hasNam && hasBac then
      assert KeysOf([nam, bac]) == ["mien-nam", "mien-bac"];
      [nam, bac]
    else if hasNam then
      assert KeysOf([nam]) == ["mien-nam"];
      [nam]
    else if hasBac then
      assert KeysOf([bac]) == ["mien-bac"];
      [bac]
    else
      var none: ResultSet := [];
      assert |KeysOf(none)| == 0;
      none
  }

  /** `parseXoSoMeHTML(html, dateStr, region)`. */
  function ParseXoSoMeHTML(html: string, dateStr: string, region: string): ResultSet
  {
    ParseBuckets(BucketsOf(html), dateStr, region)
  }

  /** `parseKetQuaHTML`: the same parser. */
  function ParseKetQuaHTML(html: string, dateStr: string, region: string): ResultSet
  {
    ParseXoSoMeHTML(html, dateStr, region)
  }

  /** The buckets of a page are well formed. */
  lemma BucketsWellFormed(html: string)
    ensures WellFormed(BucketsOf(html))
  {
  }

  /** A bucket holds exactly the word-bounded runs of `n` digits of the page, and
      it is the `n`-digit part of the page's 2-to-6 digit runs, deduplicated. */
  lemma BucketExact(html: string, n: nat, t: string)
    requires 2 <= n <= 6
    ensures t in UniqueWords(html, n) <==> IsDigitToken(html, t, n, n)
    ensures UniqueWords(html, n) == Filter(Dedupe(DigitWords(html, 2, 6)), (w: string) => |w| == n)
  {
    DigitWordsExact(html, n, n, t);
    DigitWordsBucket(html, n);
    FilterDedupe(DigitWords(html, 2, 6), (w: string) => |w| == n);
  }

  /** `mien-nam`: G1 to G4 are disjoint windows of the five-digit bucket and G5
      and G6 of the four-digit one; DB, G7 and G8 hold at most three numbers each,
      three times what one southern province draws. */
  lemma NamLayout(b: Buckets)
    requires Distinct(b.five) && Distinct(b.four)
    ensures var p := NamPrizes(b);
      && |p[0].1| <= 3 && |p[7].1| <= 3 && |p[8].1| <= 3
      && (forall t :: t in p[1].1 ==> t !in p[2].1 + p[3].1 + p[4].1)
      && (forall t :: t in p[2].1 ==> t !in p[3].1 + p[4].1)
      && (forall t :: t in p[3].1 ==> t !in p[4].1)
      && (forall t :: t in p[5].1 ==> t !in p[6].1)
  {
    var p := NamPrizes(b);
    assert p[1].1 == Slice(b.five, 0, 3) && p[2].1 == Slice(b.five, 3, 6);
    assert p[3].1 == Slice(b.five, 6, 12) && p[4].1 == Slice(b.five, 12, 33);
    assert p[5].1 == Slice(b.four, 0, 3) && p[6].1 == Slice(b.four, 3, 12);
    DisjointWindows(b.five, 0, 3, 3, 6);
    DisjointWindows(b.five, 0, 3, 6, 12);
    DisjointWindows(b.five, 0, 3, 12, 33);
    DisjointWindows(b.five, 3, 6, 6, 12);
    DisjointWindows(b.five, 3, 6, 12, 33);
    DisjointWindows(b.five, 6, 12, 12, 33);
    DisjointWindows(b.four, 0, 3, 3, 12);
  }

  /** `mien-nam`: every tier holds numbers of the length its name promises. */
  lemma NamDigits(b: Buckets)
    requires WellFormed(b)
    ensures var p := NamPrizes(b);
      && (forall t :: t in p[0].1 ==> |t| == 6)
      && (forall t :: t in p[1].1 + p[2].1 + p[3].1 + p[4].1 ==> |t| == 5)
      && (forall t :: t in p[5].1 + p[6].1 ==> |t| == 4)
      && (forall t :: t in p[7].1 ==> |t| == 3)
      && (forall t :: t in p[8].1 ==> |t| == 2)
  {
    var p := NamPrizes(b);
    assert p[1].1 + p[2].1 + p[3].1 + p[4].1
        == Slice(b.five, 0, 3) + Slice(b.five, 3, 6) + Slice(b.five, 6, 12) + Slice(b.five, 12, 33);
    assert p[5].1 + p[6].1 == Slice(b.four, 0, 3) + Slice(b.four, 3, 12);
    SliceLengths(b.six, 6, 0, 3);
    SliceLengths(b.five, 5, 0, 3);
    SliceLengths(b.five, 5, 3, 6);
    SliceLengths(b.five, 5, 6, 12);
    SliceLengths(b.five, 5, 12, 33);
    SliceLengths(b.four, 4, 0, 3);
    SliceLengths(b.four, 4, 3, 12);
    SliceLengths(b.three, 3, 0, 3);
    SliceLengths(b.two, 2, 0, 3);
  }

  lemma SliceLengths(xs: seq<string>, n: nat, lo: nat, hi: nat)
    requires lo <= hi
    requires forall t :: t in xs ==> |t| == n
    ensures forall t :: t in Slice(xs, lo, hi) ==> |t| == n
  {
    forall t | t in Slice(xs, lo, hi)
      ensures |t| == n
    {
      SliceMembers(xs, lo, hi, t);
    }
  }

  /** `mien-bac`: DB is the first six-digit number, or the first five-digit one
      when there is none; G1 to G3 start past the first five-digit number, so they
      never repeat DB, and G4 and G5 are disjoint windows of the four-digit bucket. */
  lemma BacLayout(b: Buckets)
    requires WellFormed(b)
    ensures var p := BacPrizes(b);
      && (|b.six| > 0 ==> p[0].1 == [b.six[0]])
      && (|b.six| == 0 ==> p[0].1 == Slice(b.five, 0, 1))
      && (forall t :: t in p[0].1 ==> t !in p[1].1 + p[2].1 + p[3].1)
      && (forall t :: t in p[1].1 ==> t !in p[2].1 + p[3].1)
      && (forall t :: t in p[2].1 ==> t !in p[3].1)
      && (forall t :: t in p[4].1 ==> t !in p[5].1)
  {
    var p := BacPrizes(b);
    var g13 := Slice(b.five, 1, 2) + Slice(b.five, 2, 4) + Slice(b.five, 4, 10);
    assert p[1].1 + p[2].1 + p[3].1 == g13;
    assert p[4].1 == Slice(b.four, 0, 4) && p[5].1 == Slice(b.four, 4, 10);
    DisjointWindows(b.five, 0, 1, 1, 2);
    DisjointWindows(b.five, 0, 1, 2, 4);
    DisjointWindows(b.five, 0, 1, 4, 10);
    DisjointWindows(b.five, 1, 2, 2, 4);
    DisjointWindows(b.five, 1, 2, 4, 10);
    DisjointWindows(b.five, 2, 4, 4, 10);
    DisjointWindows(b.four, 0, 4, 4, 10);
    if |b.six| > 0 {
      assert p[0].1 == [b.six[0]];
      assert |b.six[0]| == 6;
      SliceLengths(b.five, 5, 1, 2);
      SliceLengths(b.five, 5, 2, 4);
      SliceLengths(b.five, 5, 4, 10);
    } else {
      assert p[0].1 == Slice(b.five, 0, 1);
    }
  }

  /** The two source URLs, built from the pieces of `dateStr.split('-')`. */
  function XoSoMeUrl(dateStr: string): string
  {
    "https://xoso.me/xskt/ngay-" + DayMonthYear(dateStr) + ".html"
  }

  function KetQuaUrl(dateStr: string): string
  {
    "https://ketqua.net/xo-so-mien-nam-" + DayMonthYear(dateStr) + ".html"
  }

  /** What `fetchRealLotteryData` returns. */
  function RealFetched(dateStr: string, region: string, net: string -> FetchOutcome): ResultSet
  {
    FirstNonEmpty([net(XoSoMeUrl(dateStr)), net(KetQuaUrl(dateStr))],
                  (html: string) => ParseXoSoMeHTML(html, dateStr, region))
  }

  /** `fetchRealLotteryData(dateStr, region)`: xoso.me, then ketqua.net, then `{}`. */
  method FetchRealLotteryData(dateStr: string, region: string, net: string -> FetchOutcome) returns (r: ResultSet)
    ensures r == RealFetched(dateStr, region, net)
  {
    ghost var parse := (html: string) => ParseXoSoMeHTML(html, dateStr, region);
    var first := net(XoSoMeUrl(dateStr));
    var second := net(KetQuaUrl(dateStr));
    FirstOfTwo(first, second, parse);
    if first.Body? {
      var parsed := ParseXoSoMeHTML(first.html, dateStr, region);
      if parsed != [] {
        return parsed;
      }
    }
    if second.Body? {
      var parsed := ParseKetQuaHTML(second.html, dateStr, region);
      if parsed != [] {
        return parsed;
      }
    }
    return [];
  }

  /** A non-empty parse of the xoso.me page wins; otherwise the ketqua.net page
      decides. */
  lemma RealFetchOrder(dateStr: string, region: string, net: string -> FetchOutcome)
    ensures var first, second := net(XoSoMeUrl(dateStr)), net(KetQuaUrl(dateStr));
      && (first.Body? && ParseXoSoMeHTML(first.html, dateStr, region) != [] ==>
            RealFetched(dateStr, region, net) == ParseXoSoMeHTML(first.html, dateStr, region))
      && (!(first.Body? && ParseXoSoMeHTML(first.html, dateStr, region) != []) ==>
            RealFetched(dateStr, region, net)
            == if second.Body? then ParseKetQuaHTML(second.html, dateStr, region) else [])
  {
    FirstOfTwo(net(XoSoMeUrl(dateStr)), net(KetQuaUrl(dateStr)),
               (html: string) => ParseXoSoMeHTML(html, dateStr, region));
  }
}
