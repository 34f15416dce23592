/** src/app/api/lottery/route.ts: a simplified scraper that lists the distinct
    digit groups of a results page.

    The `region` query parameter may be absent (`null`), which `Option` models.
    The network is an oracle from the source URL to the outcome of fetching it
    through the proxy. */
module LotteryRoute {
  import opened Base
  import opened Text
  import opened Tokens
  import opened Results

  /** The value stored under `parsed`. */
  datatype Parsed = Parsed(name: string, region: string, date: string, numbers: seq<string>)

  /** `region || 'nam'`. */
  function RegionOrNam(region: Option<string>): (r: string)
    ensures r != ""
    ensures region.Some? && region.value != "" ==> r == region.value
  {
    if region.Some? && region.value != "" then region.value else "nam"
  }

  /** `[...new Set(numbers)].slice(0, 50)`. */
  function FirstFifty(html: string): seq<string>
  {
    Slice(Dedupe(DigitWords(html, 2, 6)), 0, 50)
  }

  /** `parseHTML(html, dateStr, region)`. */
  function ParseHTML(html: string, dateStr: string, region: Option<string>): (r: seq<(string, Parsed)>)
    ensures r != [] <==> DigitWords(html, 2, 6) != []
    ensures r != [] ==> |r| == 1 && r[0].0 == "parsed"
                        && r[0].1.date == dateStr && r[0].1.region == RegionOrNam(region)
                        && r[0].1.numbers == FirstFifty(html)
  {
    var numbers := DigitWords(html, 2, 6);
    if |numbers| > 0 then
      [("parsed", Parsed("Kết quả", RegionOrNam(region), dateStr, FirstFifty(html)))]
    else
      []
  }

  /** The record is non-empty exactly when the page holds a word-bounded run of
      two to six digits. */
  lemma ParseHTMLPresent(html: string, dateStr: string, region: Option<string>)
    ensures ParseHTML(html, dateStr, region) != [] <==> exists t :: IsDigitToken(html, t, 2, 6)
  {
    var numbers := DigitWords(html, 2, 6);
    if numbers != [] {
      DigitWordsExact(html, 2, 6, numbers[0]);
    }
    if exists t :: IsDigitToken(html, t, 2, 6) {
      var t :| IsDigitToken(html, t, 2, 6);
      DigitWordsExact(html, 2, 6, t);
    }
  }

  /** `numbers` is the first fifty distinct word-bounded digit runs of the page, in
      the order first seen (all of them when there are fewer). */
  lemma FirstFiftyExact(html: string)
    ensures var numbers, all := FirstFifty(html), Dedupe(DigitWords(html, 2, 6));
      && |numbers| <= 50
      && Distinct(numbers)
      && numbers == all[..if |all| < 50 then |all| else 50]
      && (forall t :: t in numbers ==> IsDigitToken(html, t, 2, 6))
      && (|all| <= 50 ==>
            forall t :: IsDigitToken(html, t, 2, 6) ==> t in numbers)
  {
    var all := Dedupe(DigitWords(html, 2, 6));
    var numbers := FirstFifty(html);
    assert numbers == all[..|numbers|];
    forall i, j | 0 <= i < j < |numbers|
      ensures numbers[i] != numbers[j]
    {
      assert numbers[i] == all[i] && numbers[j] == all[j];
    }
    forall t | t in numbers
      ensures IsDigitToken(html, t, 2, 6)
    {
      DigitWordsExact(html, 2, 6, t);
    }
    if |all| <= 50 {
      assert numbers == all;
      forall t | IsDigitToken(html, t, 2, 6)
        ensures t in numbers
      {
        DigitWordsExact(html, 2, 6, t);
      }
    }
  }

  /** The two sources, built from the pieces of `dateStr.split('-')`. */
  function Sources(dateStr: string): seq<string>
  {
    [ "https://xoso.me/xskt/ngay-" + DayMonthYear(dateStr) + ".html",
      "https://xskt.com.vn/xskq-xo-so-ket-qua/xsmb-" + DayMonthYear(dateStr) + ".html" ]
  }

  /** What `fetchLotteryResults` returns. */
  function Fetched(dateStr: string, region: Option<string>, net: string -> FetchOutcome): seq<(string, Parsed)>
  {
    FirstNonEmpty([net(Sources(dateStr)[0]), net(Sources(dateStr)[1])],
                  (html: string) => ParseHTML(html, dateStr, region))
  }

  /** `fetchLotteryResults(dateStr, region)`: the sources in order, the first
      non-empty parse returned, every failure swallowed. */
  method FetchLotteryResults(dateStr: string, region: Option<string>, net: string -> FetchOutcome)
    returns (r: seq<(string, Parsed)>)
    ensures r == Fetched(dateStr, region, net)
  {
    var sources := Sources(dateStr);
    var outcomes := [net(sources[0]), net(sources[1])];
    r := TrySources(outcomes, (html: string) => ParseHTML(html, dateStr, region));
  }

  /** The first source's page wins when it holds a digit run; otherwise the
      second source's page decides; the result is empty exactly when neither
      page is fetched with a digit run on it. */
  lemma FetchedOrder(dateStr: string, region: Option<string>, net: string -> FetchOutcome)
    ensures var first, second := net(Sources(dateStr)[0]), net(Sources(dateStr)[1]);
      && (first.Body? && DigitWords(first.html, 2, 6) != [] ==>
            Fetched(dateStr, region, net) == ParseHTML(first.html, dateStr, region))
      && (Fetched(dateStr, region, net) == [] <==>
            (!first.Body? || DigitWords(first.html, 2, 6) == [])
            && (!second.Body? || DigitWords(second.html, 2, 6) == []))
  {
    FirstOfTwo(net(Sources(dateStr)[0]), net(Sources(dateStr)[1]),
               (html: string) => ParseHTML(html, dateStr, region));
  }
}
