/** src/hooks/useOCR.ts, `extractLotteryInfo`: what the Tesseract hook pulls out of
    the recognised text of a ticket photo.

    The ticket numbers are read from a copy of the text in which letters that OCR
    confuses with digits are replaced by those digits; the draw date and the
    province are read from the text as recognised. `toLowerCase` is library
    behaviour, so the lower-cased text is an argument. */
module Ocr {
  import opened Base
  import opened Text
  import opened Tokens
  import Lottery

  // ---------------------------------------------------------------- normalisation

  /** `s.replace(/[ab]/g, d)`. */
  function ReplaceEither(s: string, a: char, b: char, d: char): (r: string)
    ensures |r| == |s|
    ensures forall i :: 0 <= i < |s| ==> r[i] == if s[i] == a || s[i] == b then d else s[i]
  {
    seq(|s|, i requires 0 <= i < |s| => if s[i] == a || s[i] == b then d else s[i])
  }

  /** The chain of five replacements applied to the recognised text. */
  function Normalize(text: string): string
  {
    var t0 := ReplaceEither(text, 'o', 'O', '0');
    var t1 := ReplaceEither(t0, 'l', 'I', '1');
    var t2 := ReplaceEither(t1, 'z', 'Z', '2');
    var t3 := ReplaceEither(t2, 's', 'S', '5');
    ReplaceEither(t3, 'b', 'B', '8')
  }

  /** The letters the normalisation rewrites. */
  predicate Confusable(c: char)
  {
    c in "oOlIzZsSbB"
  }

  /** The digit a confusable letter stands for. */
  function Unconfuse(c: char): char
  {
    if c == 'o' || c == 'O' then '0'
    else if c == 'l' || c == 'I' then '1'
    else if c == 'z' || c == 'Z' then '2'
    else if c == 's' || c == 'S' then '5'
    else if c == 'b' || c == 'B' then '8'
    else c
  }

  /** The five passes act character by character: the length is kept, each
      confusable letter becomes its digit and every other character, digits
      included, is left as it was. */
  lemma NormalizeEach(text: string)
    ensures |Normalize(text)| == |text|
    ensures forall i :: 0 <= i < |text| ==>
              Normalize(text)[i] == Unconfuse(text[i])
              && (Confusable(text[i]) ==> IsDigit(Normalize(text)[i]))
              && (!Confusable(text[i]) ==> Normalize(text)[i] == text[i])
  {
    var t0 := ReplaceEither(text, 'o', 'O', '0');
    var t1 := ReplaceEither(t0, 'l', 'I', '1');
    var t2 := ReplaceEither(t1, 'z', 'Z', '2');
    var t3 := ReplaceEither(t2, 's', 'S', '5');
    var t4 := ReplaceEither(t3, 'b', 'B', '8');
    forall i | 0 <= i < |text|
      ensures t4[i] == Unconfuse(text[i])
    {
      assert t0[i] == if text[i] == 'o' || text[i] == 'O' then '0' else text[i];
      assert t1[i] == if t0[i] == 'l' || t0[i] == 'I' then '1' else t0[i];
      assert t2[i] == if t1[i] == 'z' || t1[i] == 'Z' then '2' else t1[i];
      assert t3[i] == if t2[i] == 's' || t2[i] == 'S' then '5' else t2[i];
    }
  }

  /** The normalised text holds no confusable letter, so normalising twice is
      normalising once. */
  lemma NormalizeIdempotent(text: string)
    ensures forall i :: 0 <= i < |Normalize(text)| ==> !Confusable(Normalize(text)[i])
    ensures Normalize(Normalize(text)) == Normalize(text)
  {
    var n := Normalize(text);
    NormalizeEach(text);
    NormalizeEach(n);
    assert forall i :: 0 <= i < |n| ==> !Confusable(n[i]);
  }

  // ---------------------------------------------------------------- numbers

  /** `[...new Set(matches.filter(n => n.length >= 2 && n.length <= 6))]` over the
      matches of `/\b\d{2,6}\b/g` in the normalised text. */
  function Numbers(text: string): seq<string>
  {
    Dedupe(Filter(DigitWords(Normalize(text), 2, 6), (n: string) => 2 <= |n| <= 6))
  }

  /** The length filter removes nothing; the numbers are exactly the word-bounded
      runs of two to six digits of the normalised text, each once, in the order
      first seen. */
  lemma NumbersExact(text: string, t: string)
    ensures Numbers(text) == Dedupe(DigitWords(Normalize(text), 2, 6))
    ensures Distinct(Numbers(text))
    ensures t in Numbers(text) <==> IsDigitToken(Normalize(text), t, 2, 6)
  {
    FilterNoOp(DigitWords(Normalize(text), 2, 6), (n: string) => 2 <= |n| <= 6);
    DigitWordsExact(Normalize(text), 2, 6, t);
  }

  // ---------------------------------------------------------------- date

  /** `[\/\-]`. */
  predicate IsSep(c: char)
  {
    c == '/' || c == '-'
  }

  /** How many digits a greedy `\d{1,max}` takes at `i`: the digit run there, capped. */
  function DigitRun(s: string, i: nat, max: nat): (n: nat)
    requires i <= |s|
    ensures n <= max && i + n <= |s|
    ensures forall k :: i <= k < i + n ==> IsDigit(s[k])
    ensures n == max || i + n == |s| || !IsDigit(s[i + n])
  {
    var e := Span(s, i, IsDigit);
    if e - i < max then e - i else max
  }

  datatype DateParts = DateParts(day: string, month: string, year: string)

  /** `(\d{1,2})[\/\-](\d{1,2})[\/\-](\d{2,4})` tried at index `p`. The day and
      month groups are greedy, and giving a digit back never helps, since a digit
      is no separator; the year takes as many digits as it can. */
  function DateAt(s: string, p: nat): Option<DateParts>
    requires p <= |s|
  {
    var dl := DigitRun(s, p, 2);
    if dl == 0 || p + dl == |s| || !IsSep(s[p + dl]) then None
    else
      var q := p + dl + 1;
      var ml := DigitRun(s, q, 2);
      if ml == 0 || q + ml == |s| || !IsSep(s[q + ml]) then None
      else
        var r := q + ml + 1;
        var yl := DigitRun(s, r, 4);
        if yl < 2 then None
        else Some(DateParts(s[p..p + dl], s[q..q + ml], s[r..r + yl]))
  }

  /** Every character from `a` up to `b` is a digit. */
  predicate DigitsIn(s: string, a: nat, b: nat)
  {
    a <= b <= |s| && forall k :: a <= k < b ==> IsDigit(s[k])
  }

  /** The pattern matches at `p` with groups of `dl`, `ml` and `yl` digits. */
  predicate DateShape(s: string, p: nat, dl: nat, ml: nat, yl: nat)
  {
    && 1 <= dl <= 2 && 1 <= ml <= 2 && 2 <= yl <= 4
    && p + dl + ml + yl + 2 <= |s|
    && DigitsIn(s, p, p + dl)
    && IsSep(s[p + dl])
    && DigitsIn(s, p + dl + 1, p + dl + 1 + ml)
    && IsSep(s[p + dl + 1 + ml])
    && DigitsIn(s, p + dl + ml + 2, p + dl + ml + 2 + yl)
  }

  /** What `DateAt` finds is a match of the pattern at `p`. */
  lemma DateAtSound(s: string, p: nat)
    requires p <= |s| && DateAt(s, p).Some?
    ensures var x := DateAt(s, p).value;
      && DateShape(s, p, |x.day|, |x.month|, |x.year|)
      && x.day == s[p..p + |x.day|]
      && x.month == s[p + |x.day| + 1..p + |x.day| + 1 + |x.month|]
      && x.year == s[p + |x.day| + |x.month| + 2..p + |x.day| + |x.month| + 2 + |x.year|]
  {
    var dl := DigitRun(s, p, 2);
    var q := p + dl + 1;
    var ml := DigitRun(s, q, 2);
    var r := q + ml + 1;
    var yl := DigitRun(s, r, 4);
    assert DateAt(s, p) == Some(DateParts(s[p..p + dl], s[q..q + ml], s[r..r + yl]));
  }

  /** A run of `n` digits at `i` makes the capped run at least `n` long, and
      exactly `n` when no digit follows it. */
  lemma DigitRunCovers(s: string, i: nat, n: nat, max: nat)
    requires n <= max && DigitsIn(s, i, i + n)
    ensures DigitRun(s, i, max) >= n
    ensures i + n == |s| || !IsDigit(s[i + n]) ==> DigitRun(s, i, max) == n
  {
  }

  /** Every match of the pattern at `p` is found: its day and month groups are
      the ones `DateAt` reports, and the reported year is the longest possible. */
  lemma DateAtComplete(s: string, p: nat, dl: nat, ml: nat, yl: nat)
    requires DateShape(s, p, dl, ml, yl)
    ensures DateAt(s, p).Some?
    ensures |DateAt(s, p).value.day| == dl && |DateAt(s, p).value.month| == ml
    ensures yl <= |DateAt(s, p).value.year|
  {
    var q := p + dl + 1;
    var r := q + ml + 1;
    DigitRunCovers(s, p, dl, 2);
    assert DigitRun(s, p, 2) == dl;
    DigitRunCovers(s, q, ml, 2);
    assert DigitRun(s, q, 2) == ml;
    DigitRunCovers(s, r, yl, 4);
  }

  /** `text.match(...)` without the `g` flag: the match at the leftmost index. */
  function FirstDate(s: string): Option<DateParts>
  {
    FirstSome((q: nat) => if q <= |s| then DateAt(s, q) else None, 0, |s|)
  }

  /** The date match is absent exactly when the pattern matches at no index, and
      otherwise it is the match at the smallest index where there is one. */
  lemma FirstDateLeftmost(s: string)
    ensures FirstDate(s).None? <==> forall q :: 0 <= q <= |s| ==> DateAt(s, q).None?
    ensures FirstDate(s).Some? ==>
              exists q :: 0 <= q <= |s| && DateAt(s, q) == FirstDate(s)
                && forall q' :: 0 <= q' < q ==> DateAt(s, q').None?
  {
    var f := (q: nat) => if q <= |s| then DateAt(s, q) else None;
    assert forall q: nat :: q <= |s| ==> f(q) == DateAt(s, q);
  }

  /** The year as written, with `20` put in front of a two-digit one. */
  function FullYear(y: string): string
  {
    if |y| == 2 then "20" + y else y
  }

  /** `${d.padStart(2, '0')}-${m.padStart(2, '0')}-${year}`. */
  function FormatOcrDate(x: DateParts): string
  {
    PadStart2(x.day) + "-" + PadStart2(x.month) + "-" + FullYear(x.year)
  }

  /** A two-digit year `yy` stands for `20yy`. */
  lemma FullYearValue(y: string)
    requires AllDigits(y)
    ensures AllDigits(FullYear(y))
    ensures |y| == 2 ==> |FullYear(y)| == 4 && DecimalValue(FullYear(y)) == 2000 + DecimalValue(y)
    ensures |y| != 2 ==> FullYear(y) == y
  {
    if |y| == 2 {
      var f := FullYear(y);
      assert f[..3] == "20" + [y[0]];
      assert f[..3][..2] == "20";
      assert f[..3][..2][..1] == "2";
      assert DecimalValue("2") == 2;
      assert DecimalValue(f[..3]) == 200 + DigitValue(y[0]);
      assert y[..1] == [y[0]];
      assert DecimalValue(y) == 10 * DigitValue(y[0]) + DigitValue(y[1]);
    }
  }

  /** Splitting the formatted date on `-` gives back the padded day, the padded
      month and the full year, with the values of the matched groups. */
  lemma FormatOcrDateFields(x: DateParts)
    requires AllDigits(x.day) && AllDigits(x.month) && AllDigits(x.year)
    requires 1 <= |x.day| <= 2 && 1 <= |x.month| <= 2
    ensures SplitOn(FormatOcrDate(x), '-') == [PadStart2(x.day), PadStart2(x.month), FullYear(x.year)]
    ensures |PadStart2(x.day)| == 2 && DecimalValue(PadStart2(x.day)) == DecimalValue(x.day)
    ensures |PadStart2(x.month)| == 2 && DecimalValue(PadStart2(x.month)) == DecimalValue(x.month)
  {
    var parts := [PadStart2(x.day), PadStart2(x.month), FullYear(x.year)];
    FullYearValue(x.year);
    DigitsExclude(parts[0], '-');
    DigitsExclude(parts[1], '-');
    DigitsExclude(parts[2], '-');
    assert parts[1..][1..] == [parts[2]];
    assert JoinWith(parts[1..], '-') == parts[1] + ['-'] + parts[2];
    assert JoinWith(parts, '-') == parts[0] + ['-'] + JoinWith(parts[1..], '-');
    assert JoinWith(parts, '-') == FormatOcrDate(x);
    SplitJoin(parts, '-');
  }

  /** The `date` field: the first match reformatted, or absent. */
  function OcrDate(text: string): Option<string>
  {
    var m := FirstDate(text);
    if m.Some? then Some(FormatOcrDate(m.value)) else None
  }

  // ---------------------------------------------------------------- province

  /** `provincePatterns`, in insertion order. */
  const ProvincePatterns: seq<(string, seq<string>)> := [
    ("tphcm", ["hồ chí minh", "tp.hcm", "tphcm", "sài gòn", "saigon", "hcm"]),
    ("dong-nai", ["đồng nai", "dong nai"]),
    ("binh-duong", ["bình dương", "binh duong"]),
    ("vung-tau", ["vũng tàu", "vung tau", "bà rịa"]),
    ("can-tho", ["cần thơ", "can tho"]),
    ("da-nang", ["đà nẵng", "da nang"]),
    ("mien-bac", ["miền bắc", "mien bac", "hà nội", "ha noi"]),
    ("tien-giang", ["tiền giang", "tien giang"]),
    ("ben-tre", ["bến tre", "ben tre"]),
    ("long-an", ["long an"]),
    ("dong-thap", ["đồng tháp", "dong thap"]),
    ("ca-mau", ["cà mau", "ca mau"]),
    ("an-giang", ["an giang"]),
    ("kien-giang", ["kiên giang", "kien giang"])
  ]

  /** Some pattern of the list occurs in the text. */
  predicate AnyOccurs(lowerText: string, patterns: seq<string>)
  {
    exists j :: 0 <= j < |patterns| && Contains(lowerText, patterns[j])
  }

  /** The key of the first entry one of whose patterns occurs in the text. */
  function FirstProvince(table: seq<(string, seq<string>)>, lowerText: string): (r: Option<string>)
    ensures r.None? <==> forall i :: 0 <= i < |table| ==> !AnyOccurs(lowerText, table[i].1)
    ensures r.Some? ==> exists i :: 0 <= i < |table| && r.value == table[i].0
                          && AnyOccurs(lowerText, table[i].1)
                          && forall i' :: 0 <= i' < i ==> !AnyOccurs(lowerText, table[i'].1)
    decreases |table|
  {
    if table == [] then None
    else if AnyOccurs(lowerText, table[0].1) then Some(table[0].0)
    else
      var r := FirstProvince(table[1..], lowerText);
      assert forall i :: 1 <= i < |table| ==> table[i] == table[1..][i - 1];
      if r.Some? then
        var i :| 0 <= i < |table[1..]| && r.value == table[1..][i].0
                 && AnyOccurs(lowerText, table[1..][i].1)
                 && forall i' :: 0 <= i' < i ==> !AnyOccurs(lowerText, table[1..][i'].1);
        assert r.value == table[i + 1].0 && AnyOccurs(lowerText, table[i + 1].1);
        r
      else
        r
  }

  /** The nested search over `provincePatterns`, leaving both loops at the
      first pattern found. */
  method DetectProvince(lowerText: string) returns (province: Option<string>)
    ensures province == FirstProvince(ProvincePatterns, lowerText)
  {
    province := SearchTable(ProvincePatterns, lowerText);
  }

  /** The two loops of the search, over any table of key and patterns. */
  method SearchTable(table: seq<(string, seq<string>)>, lowerText: string) returns (province: Option<string>)
    ensures province == FirstProvince(table, lowerText)
  {
    province := None;
    var i := 0;
    while i < |table|
      invariant 0 <= i <= |table|
      invariant province.None?
      invariant FirstProvince(table, lowerText) == FirstProvince(table[i..], lowerText)
    {
      var key, patterns := table[i].0, table[i].1;
      var j := 0;
      while j < |patterns|
        invariant 0 <= j <= |patterns|
        invariant province.None? ==> forall k :: 0 <= k < j ==> !Contains(lowerText, patterns[k])
        invariant province.Some? ==> province == Some(key) && AnyOccurs(lowerText, patterns)
      {
        if Contains(lowerText, patterns[j]) {
          province := Some(key);
          break;
        }
        j := j + 1;
      }
      if province.Some? {
        break;
      }
      assert table[i..][1..] == table[i + 1..];
      i := i + 1;
    }
  }

  /** Where each key of `provincePatterns` sits in the schedule's `provinces` table. */
  const ScheduleIndex: seq<nat> := [15, 21, 28, 19, 22, 5, 0, 33, 18, 30, 16, 17, 25, 34]

  /** Every key the detector can report names a province of the schedule. */
  lemma ProvinceKeysKnown()
    ensures |ScheduleIndex| == |ProvincePatterns|
    ensures forall i :: 0 <= i < |ProvincePatterns| ==>
              ScheduleIndex[i] < |Lottery.Provinces| && ProvincePatterns[i].0 == Lottery.Provinces[ScheduleIndex[i]].key
  {
  }

  // ---------------------------------------------------------------- result

  datatype OcrInfo = OcrInfo(numbers: seq<string>, province: Option<string>, date: Option<string>)

  /** The value `extractLotteryInfo` returns. */
  function LotteryInfo(text: string, lowerText: string): OcrInfo
  {
    OcrInfo(Numbers(text), FirstProvince(ProvincePatterns, lowerText), OcrDate(text))
  }

  /** `extractLotteryInfo(text)`, with `lower` standing for `toLowerCase`. */
  method ExtractLotteryInfo(text: string, lower: string -> string) returns (info: OcrInfo)
    ensures info == LotteryInfo(text, lower(text))
  {
    var numbers := Numbers(text);
    var date := OcrDate(text);
    var province := DetectProvince(lower(text));
    info := OcrInfo(numbers, province, date);
  }
}
