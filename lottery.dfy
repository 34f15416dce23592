/** src/lib/lottery.ts: the draw schedule, the prize tables and the ticket matcher.

    A ticket wins against a prize number when the two agree on their last `d >= 2`
    characters; the largest such `d` is the number of matched digits, and the payout
    depends on the tier and on `d`. A weekday is an integer with Sunday = 0 and a
    calendar date is a day of the month, a zero-based month and a year. */
module Lottery {
  import opened Base
  import opened Text
  import opened Results

  datatype Region = Bac | Trung | Nam

  /** The region as the source spells it: `'bac' | 'trung' | 'nam'`. */
  function RegionName(r: Region): (s: string)
    ensures s in ["bac", "trung", "nam"]
  {
    match r
    case Bac => "bac"
    case Trung => "trung"
    case Nam => "nam"
  }

  /** An entry of the `provinces` table, with its key. */
  datatype Province = Province(key: string, name: string, region: Region, days: seq<int>)

  /** The `provinces` table in insertion order. */
  const Provinces: seq<Province> := [
    Province("mien-bac", "Miền Bắc", Bac, [0, 1, 2, 3, 4, 5, 6]),
    Province("thua-thien-hue", "Thừa Thiên Huế", Trung, [0]),
    Province("phu-yen", "Phú Yên", Trung, [1]),
    Province("dak-lak", "Đắk Lắk", Trung, [2]),
    Province("quang-nam", "Quảng Nam", Trung, [2]),
    Province("da-nang", "Đà Nẵng", Trung, [3]),
    Province("khanh-hoa", "Khánh Hòa", Trung, [0, 3]),
    Province("binh-dinh", "Bình Định", Trung, [4]),
    Province("quang-tri", "Quảng Trị", Trung, [4]),
    Province("quang-binh", "Quảng Bình", Trung, [4]),
    Province("gia-lai", "Gia Lai", Trung, [5]),
    Province("ninh-thuan", "Ninh Thuận", Trung, [5]),
    Province("quang-ngai", "Quảng Ngãi", Trung, [6]),
    Province("dak-nong", "Đắk Nông", Trung, [6]),
    Province("kon-tum", "Kon Tum", Trung, [0]),
    Province("tphcm", "TP.HCM", Nam, [1, 6]),
    Province("dong-thap", "Đồng Tháp", Nam, [1]),
    Province("ca-mau", "Cà Mau", Nam, [1]),
    Province("ben-tre", "Bến Tre", Nam, [2]),
    Province("vung-tau", "Vũng Tàu", Nam, [2]),
    Province("bac-lieu", "Bạc Liêu", Nam, [2]),
    Province("dong-nai", "Đồng Nai", Nam, [3]),
    Province("can-tho", "Cần Thơ", Nam, [3]),
    Province("soc-trang", "Sóc Trăng", Nam, [3]),
    Province("tay-ninh", "Tây Ninh", Nam, [4]),
    Province("an-giang", "An Giang", Nam, [4]),
    Province("binh-thuan", "Bình Thuận", Nam, [4]),
    Province("vinh-long", "Vĩnh Long", Nam, [5]),
    Province("binh-duong", "Bình Dương", Nam, [5]),
    Province("tra-vinh", "Trà Vinh", Nam, [5]),
    Province("long-an", "Long An", Nam, [6]),
    Province("binh-phuoc", "Bình Phước", Nam, [6]),
    Province("hau-giang", "Hậu Giang", Nam, [6]),
    Province("tien-giang", "Tiền Giang", Nam, [0]),
    Province("kien-giang", "Kiên Giang", Nam, [0]),
    Province("da-lat", "Đà Lạt", Nam, [0])
  ]

  /** One tier of a prize structure: its caption, digits per number and numbers drawn. */
  datatype Tier = Tier(caption: string, digits: nat, count: nat)

  type Structure = seq<(string, Tier)>

  const NamStructure: Structure := [
    ("DB", Tier("ĐB", 6, 1)), ("G1", Tier("G1", 5, 1)), ("G2", Tier("G2", 5, 1)),
    ("G3", Tier("G3", 5, 2)), ("G4", Tier("G4", 5, 7)), ("G5", Tier("G5", 4, 1)),
    ("G6", Tier("G6", 4, 3)), ("G7", Tier("G7", 3, 1)), ("G8", Tier("G8", 2, 1))
  ]

  const TrungStructure: Structure := [
    ("DB", Tier("ĐB", 6, 1)), ("G1", Tier("G1", 5, 1)), ("G2", Tier("G2", 5, 1)),
    ("G3", Tier("G3", 5, 2)), ("G4", Tier("G4", 5, 7)), ("G5", Tier("G5", 4, 1)),
    ("G6", Tier("G6", 4, 3)), ("G7", Tier("G7", 3, 1)), ("G8", Tier("G8", 2, 1))
  ]

  const BacStructure: Structure := [
    ("DB", Tier("ĐB", 5, 1)), ("G1", Tier("G1", 5, 1)), ("G2", Tier("G2", 5, 2)),
    ("G3", Tier("G3", 5, 6)), ("G4", Tier("G4", 4, 4)), ("G5", Tier("G5", 4, 6)),
    ("G6", Tier("G6", 3, 3)), ("G7", Tier("G7", 2, 4))
  ]

  /** The `prizeStructure` table, keyed by region name. */
  const PrizeStructure: seq<(string, Structure)> :=
    [("nam", NamStructure), ("trung", TrungStructure), ("bac", BacStructure)]

  /** The numbers drawn per province over all tiers. */
  function SlotCount(st: Structure): (n: nat)
    ensures st != [] && st[0].1.count > 0 ==> n > 0
  {
    if st == [] then 0 else st[0].1.count + SlotCount(st[1..])
  }

  /** The southern and central structures coincide, and the table holds the three
      regions. */
  lemma SameStructures()
    ensures NamStructure == TrungStructure
    ensures forall i :: 0 <= i < |PrizeStructure| ==> PrizeStructure[i].0 in ["nam", "trung", "bac"]
  {
  }

  /** A southern draw has 18 numbers and a northern one 27. */
  lemma SlotCounts()
    ensures SlotCount(NamStructure) == 18
    ensures SlotCount(BacStructure) == 27
  {
  }

  /** `formatDate`: DD-MM-YYYY with the day and the one-based month padded to two
      digits and the year printed as it is. */
  function FormatDate(day: nat, monthIndex: nat, year: nat): (r: string)
    ensures '-' in r
  {
    var r := PadStart2(NatToString(day)) + "-" + PadStart2(NatToString(monthIndex + 1)) + "-" + NatToString(year);
    assert r[|PadStart2(NatToString(day))|] == '-';
    r
  }

  lemma NatToStringShort(n: nat)
    requires n < 100
    ensures |NatToString(n)| <= 2
  {
  }

  /** Splitting a formatted date at `-` gives two two-digit fields holding the day
      and the one-based month, and the year. */
  lemma FormatDateRoundTrip(day: nat, monthIndex: nat, year: nat)
    requires day < 100 && monthIndex < 99
    ensures var parts := SplitOn(FormatDate(day, monthIndex, year), '-');
      && |parts| == 3
      && |parts[0]| == 2 && AllDigits(parts[0]) && DecimalValue(parts[0]) == day
      && |parts[1]| == 2 && AllDigits(parts[1]) && DecimalValue(parts[1]) == monthIndex + 1
      && AllDigits(parts[2]) && DecimalValue(parts[2]) == year
  {
    var d, m, y := PadStart2(NatToString(day)), PadStart2(NatToString(monthIndex + 1)), NatToString(year);
    NatToStringShort(day);
    NatToStringShort(monthIndex + 1);
    DecimalRoundTrip(day);
    DecimalRoundTrip(monthIndex + 1);
    DecimalRoundTrip(year);
    DigitsExclude(d, '-');
    DigitsExclude(m, '-');
    DigitsExclude(y, '-');
    assert JoinWith([d, m, y], '-') == d + "-" + m + "-" + y by {
      assert [d, m, y][1..] == [m, y];
      assert [m, y][1..] == [y];
      assert JoinWith([y], '-') == y;
      assert JoinWith([m, y], '-') == m + "-" + y;
      assert JoinWith([d, m, y], '-') == d + "-" + (m + "-" + y);
    }
    SplitJoin([d, m, y], '-');
  }

  /** `getProvincesByDay(date, region)`: the provinces drawing on the weekday,
      restricted to `region` unless it is empty, in table order. */
  function ProvincesByDay(weekday: int, region: string): (r: seq<Province>)
    ensures forall p :: p in r <==>
      p in Provinces && weekday in p.days && (region == "" || RegionName(p.region) == region)
    ensures Embeds(r, Provinces)
  {
    var keep := (p: Province) => weekday in p.days && (region == "" || RegionName(p.region) == region);
    FilterEmbeds(Provinces, keep);
    Filter(Provinces, keep)
  }

  /** `checkNumberMatch`'s test: the last `d` characters of both strings agree. */
  predicate SuffixesAgree(ticket: string, prize: string, d: nat)
  {
    d <= |ticket| && d <= |prize| && ticket[|ticket| - d..] == prize[|prize| - d..]
  }

  /** Agreement on the last `d` characters implies agreement on fewer. */
  lemma SuffixDownward(ticket: string, prize: string, d: nat, e: nat)
    requires SuffixesAgree(ticket, prize, d) && e <= d
    ensures SuffixesAgree(ticket, prize, e)
  {
    assert ticket[|ticket| - e..] == ticket[|ticket| - d..][d - e..];
    assert prize[|prize| - e..] == prize[|prize| - d..][d - e..];
  }

  function Min(a: nat, b: nat): nat
  {
    if a < b then a else b
  }

  /** Counting `d` down from `d` to 2: the first `d` whose suffixes agree, or 0. */
  function MatchFrom(ticket: string, prize: string, d: nat): (r: nat)
    ensures r == 0 || (2 <= r <= d && SuffixesAgree(ticket, prize, r))
    ensures forall e :: 2 <= e <= d && r < e ==> !SuffixesAgree(ticket, prize, e)
    decreases d
  {
    if d < 2 then 0
    else if SuffixesAgree(ticket, prize, d) then d
    else MatchFrom(ticket, prize, d - 1)
  }

  /** The digits `checkNumberMatch` reports: the longest agreeing suffix of at
      least two characters, or 0 when the last two characters differ. */
  function MatchedDigits(ticket: string, prize: string): (r: nat)
    ensures r == 0 || (2 <= r && SuffixesAgree(ticket, prize, r))
    ensures forall e :: 2 <= e && r < e ==> !SuffixesAgree(ticket, prize, e)
  {
    MatchFrom(ticket, prize, Min(|ticket|, |prize|))
  }

  /** A ticket matches exactly when its last two characters are the prize's. */
  lemma MatchedIffLastTwo(ticket: string, prize: string)
    ensures MatchedDigits(ticket, prize) >= 2 <==> SuffixesAgree(ticket, prize, 2)
  {
    var r := MatchedDigits(ticket, prize);
    if r >= 2 {
      SuffixDownward(ticket, prize, r, 2);
    }
  }

  datatype MatchResult = MatchResult(matched: bool, digits: nat)

  /** `checkNumberMatch(ticket, prize)`. */
  method CheckNumberMatch(ticket: string, prize: string) returns (m: MatchResult)
    ensures m.matched <==> m.digits >= 2
    ensures m.matched ==> SuffixesAgree(ticket, prize, m.digits)
    ensures forall e :: 2 <= e && m.digits < e ==> !SuffixesAgree(ticket, prize, e)
    ensures !m.matched ==> m.digits == 0
    ensures m.digits == MatchedDigits(ticket, prize)
  {
    var d := Min(|ticket|, |prize|);
    while d >= 2
      invariant d <= Min(|ticket|, |prize|)
      invariant forall e :: 2 <= e && d < e ==> !SuffixesAgree(ticket, prize, e)
      decreases d
    {
      if ticket[|ticket| - d..] == prize[|prize| - d..] {
        assert SuffixesAgree(ticket, prize, d);
        return MatchResult(true, d);
      }
      d := d - 1;
    }
    return MatchResult(false, 0);
  }

  /** The tier keys of the payout table. */
  const TierKeys: seq<string> := ["DB", "G1", "G2", "G3", "G4", "G5", "G6", "G7", "G8"]

  /** `getPrizeAmount(prizeKey, digits)`: the payout in dong, 0 for a pair the
      table does not list. */
  function PrizeAmount(prizeKey: string, digits: nat): (r: nat)
    ensures r > 0 ==> prizeKey in TierKeys && 2 <= digits <= 6
    ensures r <= 2000000000
  {
    if prizeKey == "DB" then
      if digits == 6 then 2000000000 else if digits == 5 then 40000000
      else if digits == 4 then 15000000 else if digits == 3 then 6500000
      else if digits == 2 then 100000 else 0
    else if prizeKey == "G1" then
      if digits == 5 then 30000000 else if digits == 4 then 10000000
      else if digits == 3 then 5000000 else if digits == 2 then 80000 else 0
    else if prizeKey == "G2" then
      if digits == 5 then 15000000 else if digits == 4 then 6500000
      else if digits == 3 then 3000000 else if digits == 2 then 70000 else 0
    else if prizeKey == "G3" then
      if digits == 5 then 10000000 else if digits == 4 then 4000000
      else if digits == 2 then 70000 else 0
    else if prizeKey == "G4" then
      if digits == 5 then 3000000 else if digits == 4 then 1000000
      else if digits == 2 then 70000 else 0
    else if prizeKey == "G5" then
      if digits == 4 then 1000000 else if digits == 2 then 70000 else 0
    else if prizeKey == "G6" then
      if digits == 4 then 400000 else if digits == 3 then 200000
      else if digits == 2 then 70000 else 0
    else if prizeKey == "G7" then
      if digits == 3 then 200000 else if digits == 2 then 70000 else 0
    else if prizeKey == "G8" then
      if digits == 2 then 70000 else 0
    else 0
  }

  /** Every tier pays a two-digit match, and within a tier more matched digits
      never pay less. */
  lemma PrizeAmountShape(prizeKey: string, d1: nat, d2: nat)
    requires prizeKey in TierKeys
    requires 2 <= d1 <= d2 && PrizeAmount(prizeKey, d2) > 0
    ensures PrizeAmount(prizeKey, 2) > 0
    ensures PrizeAmount(prizeKey, d1) <= PrizeAmount(prizeKey, d2)
  {
  }

  /** Matching every digit of any tier of any region's structure pays something,
      while a three-digit match on G3, G4 or G5 pays nothing. */
  lemma FullMatchPays()
    ensures forall i :: 0 <= i < |NamStructure| ==> PrizeAmount(NamStructure[i].0, NamStructure[i].1.digits) > 0
    ensures forall i :: 0 <= i < |BacStructure| ==> PrizeAmount(BacStructure[i].0, BacStructure[i].1.digits) > 0
    ensures PrizeAmount("G3", 3) == 0 && PrizeAmount("G4", 3) == 0 && PrizeAmount("G5", 3) == 0
  {
  }

  /** One entry of `checkTicket`'s result. */
  datatype WinningResult = WinningResult(
    province: string,
    prize: string,
    prizeNumber: string,
    yourNumber: string,
    matchedDigits: nat,
    prizeAmount: nat)

  /** `ticketNumber.trim().replace(/\D/g, '')`. */
  function DigitsOf(ticket: string): (r: string)
    ensures AllDigits(r) && |r| <= |ticket|
  {
    var r := Filter(Trim(ticket), IsDigit);
    assert forall k :: 0 <= k < |r| ==> r[k] in r;
    r
  }

  /** The `trim()` before removing non-digits changes nothing: the digits of the
      ticket are all of its digits, in order. */
  lemma DigitsOfAll(ticket: string)
    ensures DigitsOf(ticket) == Filter(ticket, IsDigit)
  {
    var t := Trim(ticket);
    TrimInside(ticket);
    var i, j :| 0 <= i <= j <= |ticket| && t == ticket[i..j]
              && (forall k :: 0 <= k < i ==> IsSpace(ticket[k]))
              && (forall k :: j <= k < |ticket| ==> IsSpace(ticket[k]));
    SpacesHaveNoDigits(ticket, i, j);
  }

  lemma SpacesHaveNoDigits(s: string, i: nat, j: nat)
    requires i <= j <= |s|
    requires forall k :: 0 <= k < i ==> IsSpace(s[k])
    requires forall k :: j <= k < |s| ==> IsSpace(s[k])
    ensures Filter(s[i..j], IsDigit) == Filter(s, IsDigit)
  {
    var pre, mid, post := s[..i], s[i..j], s[j..];
    forall k | 0 <= k < |pre|
      ensures IsSpace(pre[k])
    {
      assert pre[k] == s[k];
    }
    forall k | 0 <= k < |post|
      ensures IsSpace(post[k])
    {
      assert post[k] == s[j + k];
    }
    NoDigitsInSpaces(pre);
    NoDigitsInSpaces(post);
    ThreeParts(s, i, j);
    FilterAppend(pre + mid, post, IsDigit);
    FilterAppend(pre, mid, IsDigit);
    assert Filter(pre + mid, IsDigit) == Filter(mid, IsDigit);
  }

  lemma ThreeParts(s: string, i: nat, j: nat)
    requires i <= j <= |s|
    ensures s == s[..i] + s[i..j] + s[j..]
  {
  }

  lemma {:induction false} NoDigitsInSpaces(xs: string)
    requires forall k :: 0 <= k < |xs| ==> IsSpace(xs[k])
    ensures Filter(xs, IsDigit) == []
    decreases |xs|
  {
    if xs != [] {
      SpaceNotDigit(xs[0]);
      NoDigitsInSpaces(xs[1..]);
    }
  }

  predicate Matches(num: string, prizeNumber: string)
  {
    MatchedDigits(num, prizeNumber) >= 2
  }

  /** The entry pushed for a matching prize number. */
  function Entry(num: string, province: string, prize: string, prizeNumber: string): (w: WinningResult)
    ensures w.yourNumber == num && w.prizeNumber == prizeNumber
    ensures w.prizeAmount == PrizeAmount(w.prize, w.matchedDigits)
  {
    var d := MatchedDigits(num, prizeNumber);
    WinningResult(province, prize, prizeNumber, num, d, PrizeAmount(prize, d))
  }

  /** The entries of one tier, in the order of its numbers. */
  function TierWinnings(num: string, province: string, prize: string, numbers: seq<string>): seq<WinningResult>
    decreases |numbers|
  {
    if numbers == [] then []
    else
      var last := numbers[|numbers| - 1];
      TierWinnings(num, province, prize, numbers[..|numbers| - 1])
        + (if Matches(num, last) then [Entry(num, province, prize, last)] else [])
  }

  /** The entries of one province, tier by tier. */
  function ProvinceWinnings(num: string, province: string, tiers: seq<(string, seq<string>)>): seq<WinningResult>
    decreases |tiers|
  {
    if tiers == [] then []
    else
      var last := tiers[|tiers| - 1];
      ProvinceWinnings(num, province, tiers[..|tiers| - 1]) + TierWinnings(num, province, last.0, last.1)
  }

  /** The entries of all provinces, province by province. */
  function AllWinnings(num: string, results: ResultSet): seq<WinningResult>
    decreases |results|
  {
    if results == [] then []
    else
      var last := results[|results| - 1];
      AllWinnings(num, results[..|results| - 1]) + ProvinceWinnings(num, last.1.name, last.1.prizes)
  }

  /** What `checkTicket(ticketNumber, results)` returns. */
  function Winnings(ticket: string, results: ResultSet): seq<WinningResult>
  {
    var num := DigitsOf(ticket);
    if |num| < 2 then [] else AllWinnings(num, results)
  }

  /** `checkTicket`: every matching (province, tier, prize number) in iteration
      order, including matches that pay nothing. The loop over the tiers of one
      province is `CheckProvince`, the loop over the numbers of one tier
      `CheckTier`. */
  method CheckTicket(ticket: string, results: ResultSet) returns (winnings: seq<WinningResult>)
    ensures winnings == Winnings(ticket, results)
  {
    winnings := [];
    var numStr := DigitsOf(ticket);
    if |numStr| < 2 {
      return;
    }
    var i := 0;
    while i < |results|
      invariant 0 <= i <= |results|
      invariant winnings == AllWinnings(numStr, results[..i])
    {
      var found := CheckProvince(numStr, results[i].1);
      AllWinningsStep(numStr, results, i);
      winnings := winnings + found;
      i := i + 1;
    }
    assert results[..i] == results;
  }

  /** The middle loop of `checkTicket`: the entries of one province. */
  method CheckProvince(numStr: string, data: LotteryResult) returns (found: seq<WinningResult>)
    ensures found == ProvinceWinnings(numStr, data.name, data.prizes)
  {
    found := [];
    var j := 0;
    while j < |data.prizes|
      invariant 0 <= j <= |data.prizes|
      invariant found == ProvinceWinnings(numStr, data.name, data.prizes[..j])
    {
      var tier := CheckTier(numStr, data.name, data.prizes[j].0, data.prizes[j].1);
      ProvinceWinningsStep(numStr, data.name, data.prizes, j);
      found := found + tier;
      j := j + 1;
    }
    assert data.prizes[..j] == data.prizes;
  }

  /** The innermost loop of `checkTicket`: the entries of one tier. */
  method CheckTier(numStr: string, province: string, prize: string, numbers: seq<string>) returns (found: seq<WinningResult>)
    ensures found == TierWinnings(numStr, province, prize, numbers)
  {
    found := [];
    var k := 0;
    while k < |numbers|
      invariant 0 <= k <= |numbers|
      invariant found == TierWinnings(numStr, province, prize, numbers[..k])
    {
      var prizeNum := numbers[k];
      var m := CheckNumberMatch(numStr, prizeNum);
      if m.matched {
        found := found + [WinningResult(province, prize, prizeNum, numStr, m.digits, PrizeAmount(prize, m.digits))];
      }
      TierWinningsStep(numStr, province, prize, numbers, k);
      k := k + 1;
    }
    assert numbers[..k] == numbers;
  }

  lemma TierWinningsStep(num: string, province: string, prize: string, numbers: seq<string>, k: nat)
    requires k < |numbers|
    ensures TierWinnings(num, province, prize, numbers[..k + 1])
         == TierWinnings(num, province, prize, numbers[..k])
            + (if Matches(num, numbers[k]) then [Entry(num, province, prize, numbers[k])] else [])
  {
    assert numbers[..k + 1][..k] == numbers[..k];
  }

  lemma ProvinceWinningsStep(num: string, province: string, tiers: seq<(string, seq<string>)>, j: nat)
    requires j < |tiers|
    ensures ProvinceWinnings(num, province, tiers[..j + 1])
         == ProvinceWinnings(num, province, tiers[..j]) + TierWinnings(num, province, tiers[j].0, tiers[j].1)
  {
    assert tiers[..j + 1][..j] == tiers[..j];
  }

  lemma AllWinningsStep(num: string, results: ResultSet, i: nat)
    requires i < |results|
    ensures AllWinnings(num, results[..i + 1])
         == AllWinnings(num, results[..i]) + ProvinceWinnings(num, results[i].1.name, results[i].1.prizes)
  {
    assert results[..i + 1][..i] == results[..i];
  }

  /** `w` is the entry pushed for the `k`-th number of a tier. */
  predicate IsEntryAt(num: string, province: string, prize: string, numbers: seq<string>, k: int, w: WinningResult)
  {
    0 <= k < |numbers| && Matches(num, numbers[k]) && w == Entry(num, province, prize, numbers[k])
  }

  /** A tier contributes one entry per matching number, and nothing else. */
  lemma {:induction false} TierWinningsExact(num: string, province: string, prize: string, numbers: seq<string>, w: WinningResult)
    ensures w in TierWinnings(num, province, prize, numbers) <==>
      exists k :: IsEntryAt(num, province, prize, numbers, k, w)
    decreases |numbers|
  {
    if numbers != [] {
      var init, last := numbers[..|numbers| - 1], numbers[|numbers| - 1];
      var extra := if Matches(num, last) then [Entry(num, province, prize, last)] else [];
      assert TierWinnings(num, province, prize, numbers) == TierWinnings(num, province, prize, init) + extra;
      TierWinningsExact(num, province, prize, init, w);
      if w in TierWinnings(num, province, prize, numbers) {
        if w in TierWinnings(num, province, prize, init) {
          var k :| IsEntryAt(num, province, prize, init, k, w);
          assert IsEntryAt(num, province, prize, numbers, k, w);
        } else {
          assert IsEntryAt(num, province, prize, numbers, |numbers| - 1, w);
        }
      }
      if exists k :: IsEntryAt(num, province, prize, numbers, k, w) {
        var k :| IsEntryAt(num, province, prize, numbers, k, w);
        if k < |init| {
          assert IsEntryAt(num, province, prize, init, k, w);
        } else {
          assert w in extra;
        }
      }
    }
  }

  /** A tier contributes exactly as many entries as it has matching numbers. */
  lemma {:induction false} TierWinningsCount(num: string, province: string, prize: string, numbers: seq<string>)
    ensures |TierWinnings(num, province, prize, numbers)| == |Filter(numbers, n => Matches(num, n))|
    decreases |numbers|
  {
    if numbers != [] {
      var init, last := numbers[..|numbers| - 1], numbers[|numbers| - 1];
      TierWinningsCount(num, province, prize, init);
      assert numbers == init + [last];
      FilterAppend(init, [last], n => Matches(num, n));
    }
  }

  lemma {:induction false} ProvinceWinningsExact(num: string, province: string, tiers: seq<(string, seq<string>)>, w: WinningResult)
    ensures w in ProvinceWinnings(num, province, tiers) <==>
      exists j :: 0 <= j < |tiers| && w in TierWinnings(num, province, tiers[j].0, tiers[j].1)
    decreases |tiers|
  {
    if tiers != [] {
      var init := tiers[..|tiers| - 1];
      ProvinceWinningsExact(num, province, init, w);
      assert forall j :: 0 <= j < |init| ==> init[j] == tiers[j];
    }
  }

  lemma {:induction false} AllWinningsExact(num: string, results: ResultSet, w: WinningResult)
    ensures w in AllWinnings(num, results) <==>
      exists i :: 0 <= i < |results| && w in ProvinceWinnings(num, results[i].1.name, results[i].1.prizes)
    decreases |results|
  {
    if results != [] {
      var init := results[..|results| - 1];
      AllWinningsExact(num, init, w);
      assert forall i :: 0 <= i < |init| ==> init[i] == results[i];
    }
  }

  /** Every entry of `checkTicket` carries the ticket's digits, the matched digits
      `checkNumberMatch` reports (at least two) and the payout for them, and
      names a prize number drawn in some tier of some province. */
  lemma WinningsSound(ticket: string, results: ResultSet, w: WinningResult)
    requires w in Winnings(ticket, results)
    ensures w.yourNumber == DigitsOf(ticket)
    ensures 2 <= w.matchedDigits == MatchedDigits(w.yourNumber, w.prizeNumber)
    ensures w.prizeAmount == PrizeAmount(w.prize, w.matchedDigits)
    ensures exists i :: 0 <= i < |results| && w.province == results[i].1.name
  {
    var num := DigitsOf(ticket);
    AllWinningsExact(num, results, w);
    var i :| 0 <= i < |results| && w in ProvinceWinnings(num, results[i].1.name, results[i].1.prizes);
    var data := results[i].1;
    ProvinceWinningsExact(num, data.name, data.prizes, w);
    var j :| 0 <= j < |data.prizes| && w in TierWinnings(num, data.name, data.prizes[j].0, data.prizes[j].1);
    TierWinningsExact(num, data.name, data.prizes[j].0, data.prizes[j].1, w);
    var k :| IsEntryAt(num, data.name, data.prizes[j].0, data.prizes[j].1, k, w);
  }

  /** Every matching prize number of every tier of every province has its entry. */
  lemma WinningsComplete(ticket: string, results: ResultSet, i: nat, j: nat, k: nat)
    requires i < |results| && j < |results[i].1.prizes| && k < |results[i].1.prizes[j].1|
    requires |DigitsOf(ticket)| >= 2
    requires Matches(DigitsOf(ticket), results[i].1.prizes[j].1[k])
    ensures Entry(DigitsOf(ticket), results[i].1.name, results[i].1.prizes[j].0, results[i].1.prizes[j].1[k])
              in Winnings(ticket, results)
  {
    var num, data := DigitsOf(ticket), results[i].1;
    var w := Entry(num, data.name, data.prizes[j].0, data.prizes[j].1[k]);
    assert IsEntryAt(num, data.name, data.prizes[j].0, data.prizes[j].1, k, w);
    TierWinningsExact(num, data.name, data.prizes[j].0, data.prizes[j].1, w);
    ProvinceWinningsExact(num, data.name, data.prizes, w);
    AllWinningsExact(num, results, w);
  }

  /** The early return for tickets with fewer than two digits changes nothing:
      such a ticket matches no prize number anyway. */
  lemma {:induction false} ShortTicketNoMatch(num: string, results: ResultSet)
    requires |num| < 2
    ensures AllWinnings(num, results) == []
    decreases |results|
  {
    if results != [] {
      var init, last := results[..|results| - 1], results[|results| - 1];
      ShortTicketNoMatch(num, init);
      ProvinceNoMatch(num, last.1.name, last.1.prizes);
    }
  }

  lemma {:induction false} ProvinceNoMatch(num: string, province: string, tiers: seq<(string, seq<string>)>)
    requires |num| < 2
    ensures ProvinceWinnings(num, province, tiers) == []
    decreases |tiers|
  {
    if tiers != [] {
      var last := tiers[|tiers| - 1];
      ProvinceNoMatch(num, province, tiers[..|tiers| - 1]);
      TierNoMatch(num, province, last.0, last.1);
    }
  }

  lemma {:induction false} TierNoMatch(num: string, province: string, prize: string, numbers: seq<string>)
    requires |num| < 2
    ensures TierWinnings(num, province, prize, numbers) == []
    decreases |numbers|
  {
    if numbers != [] {
      TierNoMatch(num, province, prize, numbers[..|numbers| - 1]);
    }
  }

  /** A three-digit match on G3 is reported although it pays nothing. */
  lemma ZeroPayoutReported()
    ensures var results: ResultSet := [("x", LotteryResult("X", "nam", "01-01-2025", [("G3", ["45123"])]))];
      Winnings("123", results) == [WinningResult("X", "G3", "45123", "123", 3, 0)]
  {
    var num, prizeNumber := "123", "45123";
    var w := WinningResult("X", "G3", prizeNumber, num, 3, 0);
    ScenarioEntry();
    var numbers: seq<string> := [prizeNumber];
    assert |numbers[..0]| == 0;
    assert TierWinnings(num, "X", "G3", numbers[..0]) == [];
    assert TierWinnings(num, "X", "G3", numbers) == [w];
    var tiers: seq<(string, seq<string>)> := [("G3", numbers)];
    assert |tiers[..0]| == 0;
    assert ProvinceWinnings(num, "X", tiers) == [w];
    var results: ResultSet := [("x", LotteryResult("X", "nam", "01-01-2025", tiers))];
    assert |results[..0]| == 0;
    assert AllWinnings(num, results) == [w];
  }

  lemma ScenarioEntry()
    ensures DigitsOf("123") == "123"
    ensures Matches("123", "45123")
    ensures Entry("123", "X", "G3", "45123") == WinningResult("X", "G3", "45123", "123", 3, 0)
  {
    ScenarioDigits();
    ScenarioMatch();
    ScenarioAmount();
  }

  lemma ScenarioAmount()
    ensures PrizeAmount("G3", 3) == 0
  {
  }

  lemma ScenarioDigits()
    ensures DigitsOf("123") == "123"
  {
    TrimNoOp("123");
    FilterNoOp("123", IsDigit);
  }

  lemma ScenarioMatch()
    ensures MatchedDigits("123", "45123") == 3
  {
    var num, prizeNumber := "123", "45123";
    assert SuffixesAgree(num, prizeNumber, 3) by {
      assert prizeNumber[2..] == num;
    }
  }
}
