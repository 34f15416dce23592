/** What the scraping routes produce and how they pick a source.

    A JavaScript record `Record<string, V>` is an association list in insertion
    order; `Object.keys(r).length > 0` is `r != []`.

    Every route tries its sources one after the other: a source whose fetch throws,
    whose response is not `ok`, or whose page parses to an empty record is skipped
    (its error swallowed), and the first non-empty parse is returned; when all are
    skipped the result is the empty record. The network is an oracle from the
    source URL to the outcome of fetching it through the proxy. */
module Results {
  import opened Text

  /** `LotteryResult` of src/lib/lottery.ts: one draw, tiers in insertion order. */
  datatype LotteryResult = LotteryResult(
    name: string,
    region: string,
    date: string,
    prizes: seq<(string, seq<string>)>)

  /** `Record<string, LotteryResult>`, keyed by province or region key. */
  type ResultSet = seq<(string, LotteryResult)>

  /** `Object.keys(r)`: the keys of a record, in insertion order. */
  function KeysOf<V>(r: seq<(string, V)>): (ks: seq<string>)
    ensures |ks| == |r|
    ensures forall i :: 0 <= i < |ks| ==> ks[i] == r[i].0
  {
    seq(|r|, i requires 0 <= i < |r| => r[i].0)
  }

  /** The outcome of `fetch` followed by `response.text()`. */
  datatype FetchOutcome = Threw | NotOk | Body(html: string)

  /** The source yields a page that parses to a non-empty record. */
  predicate Yields<V>(o: FetchOutcome, parse: string -> seq<(string, V)>)
  {
    o.Body? && parse(o.html) != []
  }

  /** The record the chain returns: the parse of the first source that yields one. */
  function FirstNonEmpty<V(==)>(outcomes: seq<FetchOutcome>, parse: string -> seq<(string, V)>): (r: seq<(string, V)>)
    ensures r == [] <==> forall i :: 0 <= i < |outcomes| ==> !Yields(outcomes[i], parse)
    ensures r != [] ==> exists i :: (0 <= i < |outcomes| && Yields(outcomes[i], parse)
              && r == parse(outcomes[i].html)
              && forall j :: 0 <= j < i ==> !Yields(outcomes[j], parse))
    decreases |outcomes|
  {
    if outcomes == [] then []
    else if Yields(outcomes[0], parse) then parse(outcomes[0].html)
    else
      var r := FirstNonEmpty(outcomes[1..], parse);
      assert forall i :: 1 <= i < |outcomes| ==> outcomes[i] == outcomes[1..][i - 1];
      if r != [] then
        var i :| 0 <= i < |outcomes[1..]| && Yields(outcomes[1..][i], parse)
                 && r == parse(outcomes[1..][i].html)
                 && forall j :: 0 <= j < i ==> !Yields(outcomes[1..][j], parse);
        assert Yields(outcomes[i + 1], parse) && r == parse(outcomes[i + 1].html);
        r
      else
        r
  }

  /** The `try { fetch; if (ok) { parse; if non-empty return } } catch {}` chain,
      tried source by source with an early return. */
  method TrySources<V(==)>(outcomes: seq<FetchOutcome>, parse: string -> seq<(string, V)>) returns (r: seq<(string, V)>)
    ensures r == FirstNonEmpty(outcomes, parse)
  {
    var i := 0;
    while i < |outcomes|
      invariant 0 <= i <= |outcomes|
      invariant FirstNonEmpty(outcomes, parse) == FirstNonEmpty(outcomes[i..], parse)
    {
      if outcomes[i].Body? {
        var parsed := parse(outcomes[i].html);
        if parsed != [] {
          return parsed;
        }
      }
      assert outcomes[i..][1..] == outcomes[i + 1..];
      i := i + 1;
    }
    return [];
  }

  /** The chain of two sources: the first one's non-empty parse, else whatever
      the second one's page parses to. */
  lemma FirstOfTwo<V>(first: FetchOutcome, second: FetchOutcome, parse: string -> seq<(string, V)>)
    ensures FirstNonEmpty([first, second], parse)
         == if Yields(first, parse) then parse(first.html)
            else if second.Body? then parse(second.html) else []
  {
    var outcomes := [first, second];
    assert outcomes[1..] == [second];
    assert outcomes[1..][1..] == [];
  }

  /** Sources tried later only matter when every earlier one is skipped. */
  lemma {:induction false} FirstNonEmptyAppend<V>(a: seq<FetchOutcome>, b: seq<FetchOutcome>, parse: string -> seq<(string, V)>)
    ensures FirstNonEmpty(a + b, parse)
         == if FirstNonEmpty(a, parse) != [] then FirstNonEmpty(a, parse) else FirstNonEmpty(b, parse)
    decreases |a|
  {
    if a == [] {
      assert a + b == b;
    } else {
      assert (a + b)[0] == a[0];
      assert (a + b)[1..] == a[1..] + b;
      FirstNonEmptyAppend(a[1..], b, parse);
    }
  }

  /** The piece at index `i` of `s.split('-')`, or `"undefined"` when there is none,
      as a destructured missing element prints in a template literal. */
  function DatePart(s: string, i: nat): (r: string)
    ensures i < |SplitOn(s, '-')| ==> r == SplitOn(s, '-')[i]
    ensures '-' !in r
  {
    var parts := SplitOn(s, '-');
    if i < |parts| then parts[i] else "undefined"
  }

  /** `${day}-${month}-${year}` rebuilt from `const [day, month, year] = s.split('-')`. */
  function DayMonthYear(s: string): (r: string)
    ensures |SplitOn(s, '-')| == 3 ==> r == s
  {
    var r := DatePart(s, 0) + "-" + DatePart(s, 1) + "-" + DatePart(s, 2);
    if |SplitOn(s, '-')| == 3 then
      RejoinThree(s);
      r
    else
      r
  }

  /** Rejoining the three pieces of a date string with `-` gives it back. */
  lemma RejoinThree(s: string)
    requires |SplitOn(s, '-')| == 3
    ensures DatePart(s, 0) + "-" + DatePart(s, 1) + "-" + DatePart(s, 2) == s
  {
    var parts := SplitOn(s, '-');
    JoinSplit(s, '-');
    assert JoinWith(parts, '-') == parts[0] + ['-'] + JoinWith(parts[1..], '-');
    assert parts[1..][1..] == [parts[2]];
    assert JoinWith(parts[1..], '-') == parts[1] + ['-'] + parts[2];
  }
}
