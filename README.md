# veso: a Dafny model of the lottery-ticket checker

veso is a web app for Vietnamese lottery ("xổ số") tickets. Users type their ticket
numbers or photograph a ticket. The app reads the numbers (OCR or a multimodal model),
fetches the day's draw results from scraped result sites, and reports every prize
the ticket wins. A prize wins when the ticket and the prize number agree on their last
two or more digits. This project models the core of that app in Dafny and proves
what it promises:

- `lottery.dfy` (module `Lottery`, `src/lib/lottery.ts`):
  - the draw schedule (which province draws on which weekday);
  - the prize structures of the three regions and the prize-amount table;
  - the last-digits matcher `checkNumberMatch`;
  - the ticket checker `checkTicket`, as a method with loops proved against a
    reference function.
- `prefetch.dfy` (module `Prefetch`, `src/app/api/lottery/prefetch/route.ts`):
  - the scraper's tag-token parser, which maps digit tokens to the nine southern tiers;
  - the two-source fetch chain;
  - the prefetch loop, which fills a cache day by day and counts statuses.
- `real_route.dfy` (module `RealRoute`, `src/app/api/lottery/real/route.ts`): the
  digit-bucket parser for xoso.me pages and its two-source chain.
- `lottery_route.dfy` (module `LotteryRoute`, `src/app/api/lottery/route.ts`): the
  simplified scraper that lists the first fifty distinct digit groups.
- `ocr_extract.dfy` (module `Ocr`, `src/hooks/useOCR.ts`): `extractLotteryInfo`, which
  does three things:
  - fixes confusable letters and collects the numbers;
  - finds the first date and rewrites it as DD-MM-YYYY;
  - detects the province by keyword.
- `gemini_ocr.dfy` (module `GeminiOcr`, `src/app/api/ocr/gemini/route.ts`): the OCR
  endpoint's `POST`. It covers:
  - the input checks and data-URL stripping;
  - the retry loop over two models with two attempts each;
  - code-fence stripping, date reordering, and the fallback scan for six-digit numbers.
- `ticket_storage.dfy` (module `TicketStorage`, `src/hooks/useTicketStorage.ts`): the
  saved-ticket list. It is a class whose methods add, update, remove and clear
  tickets and log each write to storage.
- `ticket_form.dfy` (module `TicketForm`, `src/components/TicketForm.tsx`): parsing the
  number box on submit, and grouping the province picker by region.

Four modules hold shared definitions:

- `Base`: filtering, de-duplication (`[...new Set(xs)]`) and `slice`.
- `Text`: JavaScript's `\d`, `\w` and `\s` character classes, `trim`, `split`/`join`,
  decimal strings and `padStart`.
- `Tokens`: the regular expressions `\b\d{m,n}\b` and `>\s*(\d{2,6})\s*<`. Each is
  proved to find exactly the tokens the pattern describes.
- `Results`: the `Record<string, LotteryResult>` shape and the "first source that
  parses wins" chain.

Conventions used throughout the model:

- A JavaScript object used as a record is a sequence of key/value pairs in insertion
  order.
- The network is an oracle from URL to fetch outcome.
- The clock, `Math.random`, `toLowerCase` and `JSON.parse` are parameters.

Behaviour of the code worth knowing when reading the model:

- `extractLotteryInfo` gives the date as DD-MM-YYYY and completes a two-digit year
  by prefixing "20" (src/hooks/useOCR.ts:86-91, `Ocr.FullYearValue`).
- It takes as ticket numbers every distinct 2–6 digit group of the normalised text
  (src/hooks/useOCR.ts:82-83, `Ocr.NumbersExact`).
- The prefetch parser always builds the nine-tier southern layout, for the northern
  region too (src/app/api/lottery/prefetch/route.ts:140-148, `Prefetch.SouthernLayout`).
  When the page has no six-digit token, the special prize falls back to the first
  five-digit token, which is then also G1 (`Prefetch.SpecialPrizeFallback`).
- The xoso.me parser slices up to three numbers for tiers where the region draws one.
  For region `trung` it yields nothing (src/app/api/lottery/real/route.ts:106-148,
  `RealRoute.ParseBuckets`).

## Model

| member | source | states |
|---|---|---|
| Lottery.SameStructures | src/lib/lottery.ts:42-75 | the southern and central prize structures are identical, and the table is keyed by the three region names |
| Lottery.SlotCounts | src/lib/lottery.ts:42-75 | a southern or central draw has 18 numbers over 9 tiers; a northern draw has 27 over 8 |
| Lottery.FormatDate | src/lib/lottery.ts:94-99 | the formatted date always holds a `-` separator |
| Lottery.FormatDateRoundTrip | src/lib/lottery.ts:94-99 | splitting the formatted date on `-` gives three decimal fields: the two-digit padded day, the one-based month, and the year, with their values |
| Lottery.ProvincesByDay | src/lib/lottery.ts:110-115 | a province is listed exactly when it draws on that weekday and is in the requested region (any region for none), in table order |
| Lottery.MatchFrom | src/lib/lottery.ts:153-157 | the scan from d digits down to 2 returns the largest count of agreeing last digits, or 0 |
| Lottery.MatchedDigits | src/lib/lottery.ts:152-159 | the matched-digit count is the largest d ≥ 2 on which the last d characters agree, or 0 when even the last two differ |
| Lottery.MatchedIffLastTwo | src/lib/lottery.ts:152-159 | a ticket matches a prize exactly when their last two characters agree |
| Lottery.CheckNumberMatch | src/lib/lottery.ts:152-159 | the loop reports a match iff at least two digits agree; its digit count is the maximal agreeing suffix length, or 0 |
| Lottery.PrizeAmount | src/lib/lottery.ts:162-175 | a positive payout needs a known tier and 2–6 matched digits, and never exceeds 2,000,000,000 |
| Lottery.PrizeAmountShape | src/lib/lottery.ts:163-173 | every tier that pays for some match pays for two digits, and payouts never fall as more digits match |
| Lottery.FullMatchPays | src/lib/lottery.ts:162-175 | matching every digit of any tier's number pays, while three digits on G3, G4 or G5 pay nothing |
| Lottery.DigitsOf | src/lib/lottery.ts:180 | the cleaned ticket number is all digits and no longer than the input |
| Lottery.DigitsOfAll | src/lib/lottery.ts:180 | trimming then dropping non-digits keeps exactly the ticket's digits in order |
| Lottery.Entry | src/lib/lottery.ts:189-196 | a reported entry carries the ticket and prize numbers, and its amount is the table amount for its tier and digit count |
| Lottery.CheckTicket | src/lib/lottery.ts:178-203 | the nested loops return exactly the reference list of winnings |
| Lottery.CheckProvince | src/lib/lottery.ts:185-199 | the tier loop for one province returns that province's winnings in tier order |
| Lottery.CheckTier | src/lib/lottery.ts:186-198 | the number loop for one tier returns one entry per matching prize number, in order |
| Lottery.TierWinningsExact | src/lib/lottery.ts:186-198 | an entry is reported for a tier iff it is the entry of a matching prize number of that tier |
| Lottery.TierWinningsCount | src/lib/lottery.ts:186-198 | a tier reports as many entries as it has matching prize numbers |
| Lottery.ProvinceWinningsExact | src/lib/lottery.ts:185-199 | a province's winnings are exactly the union of its tiers' winnings |
| Lottery.AllWinningsExact | src/lib/lottery.ts:184-200 | the ticket's winnings are exactly the union of the provinces' winnings |
| Lottery.WinningsSound | src/lib/lottery.ts:178-203 | each reported win is for the cleaned ticket, matches on its maximal suffix of ≥ 2 digits, pays the table amount and names a province in the results |
| Lottery.WinningsComplete | src/lib/lottery.ts:178-203 | every prize number matching a ticket of ≥ 2 digits is reported |
| Lottery.ShortTicketNoMatch | src/lib/lottery.ts:182 | a ticket with fewer than two digits wins nothing |
| Lottery.ProvinceNoMatch | src/lib/lottery.ts:185-199 | a number shorter than two digits matches nothing in a province |
| Lottery.TierNoMatch | src/lib/lottery.ts:186-198 | a number shorter than two digits matches nothing in a tier |
| Lottery.ZeroPayoutReported | src/lib/lottery.ts:188-196 | a three-digit match on G3 is reported with amount 0 |
| Prefetch.RegionKey | src/app/api/lottery/prefetch/route.ts:132 | the record key is `mien-bac` iff the region is bac, `mien-trung` iff trung, otherwise `mien-nam` |
| Prefetch.UniqueTokens | src/app/api/lottery/prefetch/route.ts:118-123 | the tokens are distinct runs of 2–6 digits |
| Prefetch.UniqueTokensExact | src/app/api/lottery/prefetch/route.ts:118-123 | a string is a token iff it is 2–6 digits standing between `>` and `<` with only white space around it |
| Prefetch.LengthFilterNoOp | src/app/api/lottery/prefetch/route.ts:121 | the 2–6 length filter drops nothing the pattern found |
| Prefetch.ParseHTML | src/app/api/lottery/prefetch/route.ts:115-154 | the parse is empty iff fewer than 15 distinct tokens; otherwise one record under the region key, with the date, the region defaulting to nam, and the tiers built from the distinct tokens |
| Prefetch.SouthernLayout | src/app/api/lottery/prefetch/route.ts:140-148 | the record always has the nine southern tier keys, never the northern layout |
| Prefetch.TierSizes | src/app/api/lottery/prefetch/route.ts:140-148 | each tier holds at most as many numbers as its slice |
| Prefetch.TierDigits | src/app/api/lottery/prefetch/route.ts:126-148 | each tier takes page tokens of its own digit length (DB six, or five as a fallback) |
| Prefetch.BucketSlice | src/app/api/lottery/prefetch/route.ts:126-130 | a slice of a length bucket holds page tokens of that length |
| Prefetch.SpecialPrize | src/app/api/lottery/prefetch/route.ts:141 | with a six-digit token on the page, DB is the first such token |
| Prefetch.SpecialPrizeFallback | src/app/api/lottery/prefetch/route.ts:141-142 | without a six-digit token, DB and G1 are both the first five-digit token |
| Prefetch.DisjointTiers | src/app/api/lottery/prefetch/route.ts:142-146 | G1–G4 take disjoint numbers, and so do G5 and G6 |
| Prefetch.FetchedFor | src/app/api/lottery/prefetch/route.ts:83-113 | a fetch yields nothing or one record under the region key for the date |
| Prefetch.FetchLotteryForDate | src/app/api/lottery/prefetch/route.ts:83-113 | the source chain returns the reference fetch result |
| Prefetch.FetchFirstWins | src/app/api/lottery/prefetch/route.ts:87-97 | a minhngoc page with 15 tokens decides the result |
| Prefetch.FetchNothing | src/app/api/lottery/prefetch/route.ts:83-113 | the result is empty iff neither source gives a page with 15 distinct tokens |
| Prefetch.PrefetchDay | src/app/api/lottery/prefetch/route.ts:43-69 | one day of the loop gives the reference status and cache |
| Prefetch.FetcherShape | src/app/api/lottery/prefetch/route.ts:56 | the fetcher a day uses yields nothing or one record under the region key |
| Prefetch.DayStepStatus | src/app/api/lottery/prefetch/route.ts:43-69 | a day's status names its date, and its count fits its status |
| Prefetch.DayStepCache | src/app/api/lottery/prefetch/route.ts:48-62 | a day only adds the day's key, and only with non-empty fetched data; existing entries are kept |
| Prefetch.Prefetch | src/app/api/lottery/prefetch/route.ts:24-81 | the request loop returns the reference response and cache |
| Prefetch.CountsAddUp | src/app/api/lottery/prefetch/route.ts:72-78 | the four status counts add up to the number of days |
| Prefetch.RunDaysStatuses | src/app/api/lottery/prefetch/route.ts:40-70 | the loop reports one status per day, in day order |
| Prefetch.StatusesAppend | src/app/api/lottery/prefetch/route.ts:62 | appending the next day's status keeps the day-by-day order |
| Prefetch.DayStepExtends | src/app/api/lottery/prefetch/route.ts:57-62 | a day keeps the cache an extension by single-record entries |
| Prefetch.ExtendsStep | src/app/api/lottery/prefetch/route.ts:40-70 | extension of the initial cache survives each further day |
| Prefetch.RunDaysCache | src/app/api/lottery/prefetch/route.ts:40-70 | after all days the cache extends the initial one by single-record entries |
| Prefetch.CacheHitSkipsFetch | src/app/api/lottery/prefetch/route.ts:48-53 | a readable cached day is reported cached whatever the network would return |
| Prefetch.PrefetchResponse | src/app/api/lottery/prefetch/route.ts:24-81 | 500 iff Redis is not configured; otherwise one status per requested day, the counts add up, and the cache only grows by one-record entries |
| RealRoute.UniqueWords | src/app/api/lottery/real/route.ts:88-103 | a bucket holds distinct digit words of its length |
| RealRoute.BucketExact | src/app/api/lottery/real/route.ts:88-103 | a string is in the n-digit bucket iff it is an n-digit word of the page, and the bucket is the n-digit part of the de-duplicated 2–6 list |
| RealRoute.BucketsWellFormed | src/app/api/lottery/real/route.ts:88-103 | every bucket is distinct and of its own length |
| RealRoute.ParseBuckets | src/app/api/lottery/real/route.ts:84-149 | `mien-nam` appears iff the region is unset or nam and a six-digit word exists; `mien-bac` iff unset or bac and six-digit or more than ten five-digit words; each record carries its region's tier layout built from the buckets; other regions give nothing |
| RealRoute.NamLayout | src/app/api/lottery/real/route.ts:113-121 | DB, G7 and G8 take at most three numbers each, and the five- and four-digit tiers take disjoint slices |
| RealRoute.NamDigits | src/app/api/lottery/real/route.ts:113-121 | each southern tier holds numbers of its digit length |
| RealRoute.SliceLengths | src/app/api/lottery/real/route.ts:113-121 | a slice of same-length numbers keeps that length |
| RealRoute.BacLayout | src/app/api/lottery/real/route.ts:135-142 | DB is the first six-digit word, else the first five-digit one, and the northern tiers take disjoint slices |
| RealRoute.FetchRealLotteryData | src/app/api/lottery/real/route.ts:40-82 | the source chain returns the reference fetch result |
| RealRoute.RealFetchOrder | src/app/api/lottery/real/route.ts:40-82 | a non-empty xoso.me parse wins; otherwise the ketqua page's parse is returned, or nothing when it was not fetched |
| LotteryRoute.RegionOrNam | src/app/api/lottery/route.ts:74 | the region defaults to nam when absent or empty |
| LotteryRoute.ParseHTML | src/app/api/lottery/route.ts:61-81 | the parse is non-empty iff the page holds a digit group; then it is one `parsed` record with the date, the region and the first fifty distinct groups |
| LotteryRoute.ParseHTMLPresent | src/app/api/lottery/route.ts:67-71 | a record is produced iff a word-bounded 2–6 digit run exists on the page |
| LotteryRoute.FirstFiftyExact | src/app/api/lottery/route.ts:76 | the numbers are exactly the first min(50, n) of the n distinct page digit groups, in first-seen order; each is a word-bounded 2–6 digit run, and every such run is listed when n ≤ 50 |
| LotteryRoute.FetchLotteryResults | src/app/api/lottery/route.ts:27-59 | the source loop returns the reference fetch result |
| LotteryRoute.FetchedOrder | src/app/api/lottery/route.ts:37-58 | the first page with a digit group wins, and the result is empty iff neither page has one |
| Ocr.ReplaceEither | src/hooks/useOCR.ts:74-79 | one replacement maps both letters of a pair to the digit and leaves every other character |
| Ocr.NormalizeEach | src/hooks/useOCR.ts:74-79 | normalising keeps the length, turns each confusable letter into a digit and leaves the rest unchanged |
| Ocr.NormalizeIdempotent | src/hooks/useOCR.ts:74-79 | normalised text has no confusable letter, so normalising twice is normalising once |
| Ocr.NumbersExact | src/hooks/useOCR.ts:82-83 | the numbers are the distinct word-bounded 2–6 digit groups of the normalised text, in first-seen order |
| Ocr.DigitRun | src/hooks/useOCR.ts:86 | a `\d{1,n}` run is as long as the digits allow, up to n |
| Ocr.DateAtSound | src/hooks/useOCR.ts:86-88 | a date found at a position is made of the page's digit fields around `/` or `-` separators |
| Ocr.DateAtComplete | src/hooks/useOCR.ts:86-88 | every date shape at a position is found there, with the same day and month lengths |
| Ocr.FirstDateLeftmost | src/hooks/useOCR.ts:86-88 | the date found is the leftmost date in the text, or none when there is none |
| Ocr.FullYearValue | src/hooks/useOCR.ts:90 | a two-digit year becomes the four-digit year 2000 + yy; other years are kept |
| Ocr.FormatOcrDateFields | src/hooks/useOCR.ts:91 | the date is rewritten DD-MM-YYYY with the day and month padded to two digits, keeping their values |
| Ocr.FirstProvince | src/hooks/useOCR.ts:112-122 | the province is the first table entry with a pattern in the text, or none iff no pattern occurs |
| Ocr.DetectProvince | src/hooks/useOCR.ts:95-122 | the keyword loop over the fourteen province patterns returns the first province found |
| Ocr.SearchTable | src/hooks/useOCR.ts:112-122 | the nested loops with break return the first entry with a pattern in the text |
| Ocr.ProvinceKeysKnown | src/hooks/useOCR.ts:95-110 | every detected province key is a key of the schedule's province table |
| Ocr.ExtractLotteryInfo | src/hooks/useOCR.ts:72-125 | the result is the numbers, date and province of the reference extraction |
| GeminiOcr.DataUrlPrefix | src/app/api/ocr/gemini/route.ts:110 | the stripped prefix is never longer than the image string |
| GeminiOcr.StripDataUrlShape | src/app/api/ocr/gemini/route.ts:110 | the image is kept, or a `data:image/<word>;base64,` prefix is removed |
| GeminiOcr.StripDataUrlOthers | src/app/api/ocr/gemini/route.ts:110 | a string not starting with `data:` is kept |
| GeminiOcr.StripDataUrlRoundTrip | src/app/api/ocr/gemini/route.ts:110 | stripping a data URL gives its base64 payload back |
| GeminiOcr.ModelRun | src/app/api/ocr/gemini/route.ts:118-145 | one model makes at most two calls, and any text it yields is a reply of that model |
| GeminiOcr.Run | src/app/api/ocr/gemini/route.ts:117-148 | the models make at most two calls each, and any text is a reply of the model recorded as used |
| GeminiOcr.TryModels | src/app/api/ocr/gemini/route.ts:117-148 | the model loop returns the reference text, model and last error |
| GeminiOcr.TryModel | src/app/api/ocr/gemini/route.ts:118-145 | the attempt loop of one model returns the reference attempt state |
| GeminiOcr.FirstReplyWins | src/app/api/ocr/gemini/route.ts:117-148 | a first non-empty reply of the first model ends the search after one call |
| GeminiOcr.RateLimitRetries | src/app/api/ocr/gemini/route.ts:129-133 | a rate-limit error records the message and retries the same model |
| GeminiOcr.OtherErrorMovesOn | src/app/api/ocr/gemini/route.ts:136-143 | any other error records the message and moves to the next model |
| GeminiOcr.EmptyReplyMovesOn | src/app/api/ocr/gemini/route.ts:121-147 | an empty reply moves to the next model without an error |
| GeminiOcr.DropPrefix | src/app/api/ocr/gemini/route.ts:163-168 | the text is kept or loses exactly a leading fence |
| GeminiOcr.DropSuffix | src/app/api/ocr/gemini/route.ts:169-171 | the text is kept or loses exactly a trailing fence |
| GeminiOcr.StripFences | src/app/api/ocr/gemini/route.ts:162-172 | the cleaning steps return the reference unfenced text |
| GeminiOcr.UnfencedInside | src/app/api/ocr/gemini/route.ts:162-172 | the cleaned text is a substring of the reply with no white space at either end |
| GeminiOcr.UnfencedRoundTrip | src/app/api/ocr/gemini/route.ts:162-172 | a trimmed body inside a `json` code fence comes back unchanged |
| GeminiOcr.UnfencedPlain | src/app/api/ocr/gemini/route.ts:162-172 | trimmed text without fences is kept |
| GeminiOcr.DmySplit | src/app/api/ocr/gemini/route.ts:177-184 | a DD-MM-YYYY or DD/MM/YYYY date splits into its three fields |
| GeminiOcr.ReorderDateFields | src/app/api/ocr/gemini/route.ts:177-184 | a day-first date becomes YYYY-MM-DD with the same fields, and reversing the fields gives the date back |
| GeminiOcr.ReorderDateOthers | src/app/api/ocr/gemini/route.ts:177-184 | other dates are kept, and reordering twice is reordering once |
| GeminiOcr.SixDigitNumbersExact | src/app/api/ocr/gemini/route.ts:196-199 | the fallback lists each word-bounded six-digit group of the reply once |
| GeminiOcr.Post | src/app/api/ocr/gemini/route.ts:88-220 | the handler returns the reference response |
| GeminiOcr.InputChecks | src/app/api/ocr/gemini/route.ts:91-107 | a missing key gives 500 and a missing image 400, with no model called |
| GeminiOcr.ModelOutcome | src/app/api/ocr/gemini/route.ts:112-193 | no text from any model gives 429 with the last error; text gives a 200 naming a listed model after at most four calls |
| GeminiOcr.FallbackNumbers | src/app/api/ocr/gemini/route.ts:194-203 | an unparsable reply still succeeds, returns the raw text and the distinct six-digit groups |
| TicketStorage.TicketStore.constructor | src/hooks/useTicketStorage.ts:26-36 | the store starts with the loaded tickets and no writes |
| TicketStorage.TicketStore.AddTicket | src/hooks/useTicketStorage.ts:47-75 | the list is updated in place for a known draw or the new ticket is put first and cut to 100, the list is saved, and the built ticket is returned |
| TicketStorage.TicketStore.RemoveTicket | src/hooks/useTicketStorage.ts:77-83 | tickets with the id are dropped and the list is saved |
| TicketStorage.TicketStore.ClearAllTickets | src/hooks/useTicketStorage.ts:85-88 | the list is emptied and the storage key removed |
| TicketStorage.AddUpdates | src/hooks/useTicketStorage.ts:56-64 | a known draw keeps length and order; its tickets take the given fields and keep id and creation time; the rest are unchanged |
| TicketStorage.AddPrepends | src/hooks/useTicketStorage.ts:68-71 | a new draw's ticket comes first, the others follow in order, and the list is cut to 100 |
| TicketStorage.UpdateIdempotent | src/hooks/useTicketStorage.ts:56-64 | adding the same fields twice for a known draw is adding them once |
| TicketStorage.RemovedExact | src/hooks/useTicketStorage.ts:79 | a ticket stays iff it was there and has another id, in the same order |
| TicketStorage.AddThenRemove | src/hooks/useTicketStorage.ts:47-83 | removing a just-added ticket under a fresh id restores a list that was not full |
| TicketForm.SplitRuns | src/components/TicketForm.tsx:31 | the split always has at least one piece |
| TicketForm.SplitRunsNoBreak | src/components/TicketForm.tsx:31 | no piece holds a line break or comma |
| TicketForm.HandleSubmit | src/components/TicketForm.tsx:28-38 | nothing is submitted iff no number is left; otherwise the date, the province and the cleaned number list are passed on |
| TicketForm.NumberListShape | src/components/TicketForm.tsx:30-33 | each submitted number has at least two characters, no white space at either end and no break, in input order |
| TicketForm.SplitRunsJoin | src/components/TicketForm.tsx:31 | splitting a newline join of non-empty break-free pieces gives the pieces back |
| TicketForm.NumberListRoundTrip | src/components/TicketForm.tsx:19-33 | submitting the initial numbers as the form shows them gives the same numbers back |
| TicketForm.InRegion | src/components/TicketForm.tsx:41-45 | a group holds exactly the table's provinces of its region |
| TicketForm.GroupedPartition | src/components/TicketForm.tsx:41-45 | the three groups partition the table, each in table order |
| Tokens.WordsExact | src/app/api/lottery/route.ts:67-68 | the word scanner finds exactly the maximal runs of ASCII word characters |
| Tokens.DigitWords | src/app/api/lottery/route.ts:67-68 | every token found is all digits with a length in range |
| Tokens.DigitWordsExact | src/app/api/lottery/route.ts:67-68 | a string is found iff it is a word-bounded digit run of that length range |
| Tokens.DigitWordsBucket | src/app/api/lottery/real/route.ts:88-96 | the n-digit scan equals the n-digit part of the 2–6 scan, in order |
| Tokens.TagTokensExact | src/app/api/lottery/prefetch/route.ts:118 | the tag scanner finds exactly the 2–6 digit runs between `>` and `<` with only white space around them |
| Results.KeysOf | src/app/api/lottery/prefetch/route.ts:57 | the keys list has one key per record entry, in order |
| Results.FirstNonEmpty | src/app/api/lottery/route.ts:37-58 | empty iff no source yields a non-empty parse; otherwise the parse of the first that does |
| Results.TrySources | src/app/api/lottery/route.ts:37-58 | the source loop returns the first non-empty parse |
| Results.FirstOfTwo | src/app/api/lottery/real/route.ts:40-82 | with two sources, a yielding first wins, otherwise the second page's parse |
| Results.FirstNonEmptyAppend | src/app/api/lottery/route.ts:37-55 | trying more sources after a success changes nothing |
| Results.DatePart | src/app/api/lottery/route.ts:29 | a date field is the split piece and never holds `-` |
| Results.RejoinThree | src/app/api/lottery/route.ts:29-35 | the three fields of a split date rejoin to the date |
| Base.Dedupe | src/app/api/lottery/prefetch/route.ts:123 | the de-duplicated list is distinct, has the same members, and keeps the first element first |
| Base.Slice | src/app/api/lottery/route.ts:76 | a slice takes the elements between the clamped bounds |
| Text.TrimInside | src/lib/lottery.ts:180 | the trimmed string is a slice with only white space cut away on either side |
| Text.SplitJoin | src/app/api/lottery/route.ts:29 | splitting a join on a separator no piece holds gives the pieces back |
| Text.PadStart2 | src/hooks/useOCR.ts:91 | padding to two characters keeps the decimal value |

## Left out

- Network I/O is left out. `fetch`, the allorigins proxy, `next.revalidate` and
  timeouts are replaced by an oracle from URL to outcome. Thrown errors are the
  `Failed` outcome.
- Redis is left out: the client, its URL and token configuration, and the
  `setex` time-to-live. The cache is a map. Read or write failures are per-key flags.
- The clock (`new Date()`, the day offsets in the prefetch loop), `Date.now()` and
  `Math.random()` ids are parameters.
- Loading tickets from `localStorage` at mount, and `JSON.parse` and
  `JSON.stringify`, are outside the model. The loaded list is the constructor's
  argument, and a write is logged as the list it stores.
- The `GET` wrappers of src/app/api/lottery/route.ts and
  src/app/api/lottery/real/route.ts and their `formatToday` are not
  modelled. They only read query parameters and call the modelled functions.
- The `provinces` map in `src/app/api/lottery/real/route.ts` is not modelled. It is
  never used.
- Image preprocessing (`preprocessImage`, the canvas and the binarisation) is not
  part of this model, nor are the OCR engines (Tesseract, the Gemini SDK calls). A
  model call is an oracle from model, image and attempt to outcome.
- `sleep` is not modelled: waiting does not change the outcome.
- `toLowerCase` is a parameter of `Ocr.ExtractLotteryInfo`. Unicode case mapping is
  not modelled.
- `Ocr.ExtractLotteryInfo` reads the date and the province from the original
  text, as the code does. Only the numbers come from the normalised text.
- The mock results and `formatCurrency` (locale formatting) are not modelled.
- `src/hooks/useGeminiOCR.ts` and the display components are not part of this
  model.
- Prefetch.PrefetchResponse: a `days` parameter that `parseInt` cannot read (NaN)
  is not modelled. `days` is an integer, and a negative count gives no days.
- `{...t, ...ticket}` with an explicitly `undefined` field overwrites the stored
  value. The model treats an absent optional field as not given.
- `console.log` and `console.error` output is left out.
- Lottery.CheckTicket: the loop over provinces, tiers and numbers is split into
  three methods (`CheckTicket`, `CheckProvince`, `CheckTier`), one loop each.
- Ocr.DetectProvince: its nested loop lives in `Ocr.SearchTable`.
- GeminiOcr.TryModels: its inner retry loop lives in `GeminiOcr.TryModel`.
- The generic grouping over any province table is what the form applies to the
  schedule's table.
