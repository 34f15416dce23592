/** src/app/api/ocr/gemini/route.ts: the server route that reads a ticket photo
    with Gemini.

    The environment variable, the request body, each model call and `JSON.parse`
    are outside the model: whether the key is configured is a flag, the body is
    a `Request`, the calls are an oracle from (model name, image data, attempt
    number) to what the call returned or the message it threw, and the JSON
    parse is a function that yields nothing when parsing throws. */
module GeminiOcr {
  import opened Base
  import opened Text
  import opened Tokens

  // ---------------------------------------------------------------- data URL prefix

  const DataImage: string := "data:image/"
  const Base64Marker: string := ";base64,"

  /** The length of a leading `data:image/<word>;base64,`, or 0 when there is none
      (section 3 of RFC 2397, for an image type that is one word). */
  function DataUrlPrefix(s: string): (n: nat)
    ensures n <= |s|
  {
    if !StartsWith(s, DataImage) then 0
    else
      var e := Span(s, |DataImage|, IsWordChar);
      if e > |DataImage| && StartsWith(s[e..], Base64Marker) then e + |Base64Marker| else 0
  }

  /** `image.replace(/^data:image\/\w+;base64,/, '')`. */
  function StripDataUrl(image: string): string
  {
    image[DataUrlPrefix(image)..]
  }

  /** A word of one or more word characters. */
  predicate IsWord(w: string)
  {
    |w| > 0 && forall k :: 0 <= k < |w| ==> IsWordChar(w[k])
  }

  /** What is removed is one `data:image/<word>;base64,` prefix and nothing else. */
  lemma StripDataUrlShape(image: string)
    ensures image == StripDataUrl(image)
         || exists w :: IsWord(w) && image == DataImage + w + Base64Marker + StripDataUrl(image)
  {
    var n := DataUrlPrefix(image);
    if n > 0 {
      var e := Span(image, |DataImage|, IsWordChar);
      var w := image[|DataImage|..e];
      assert IsWord(w);
      assert image[e..][..|Base64Marker|] == image[e..e + |Base64Marker|];
      assert image == image[..|DataImage|] + w + image[e..e + |Base64Marker|] + image[n..];
    }
  }

  /** A string that does not start with `data:` is left alone. */
  lemma StripDataUrlOthers(image: string)
    requires !StartsWith(image, "data:")
    ensures StripDataUrl(image) == image
  {
  }

  /** Stripping undoes putting the prefix in front of the data. */
  lemma StripDataUrlRoundTrip(w: string, data: string)
    requires IsWord(w)
    ensures StripDataUrl(DataImage + w + Base64Marker + data) == data
  {
    var s := DataImage + w + Base64Marker + data;
    var e := |DataImage| + |w|;
    assert s[..|DataImage|] == DataImage;
    forall k | |DataImage| <= k < e
      ensures IsWordChar(s[k])
    {
      assert s[k] == w[k - |DataImage|];
    }
    assert s[e] == ';';
    SpanIs(s, |DataImage|, e, IsWordChar);
    assert s[e..][..|Base64Marker|] == Base64Marker;
    assert s[e + |Base64Marker|..] == data;
  }

  // ---------------------------------------------------------------- model retry loop

  /** `MODELS_TO_TRY`, in order. */
  const Models: seq<string> := ["gemini-2.0-flash", "gemini-2.0-flash-lite"]

  /** Attempts per model. */
  const MaxAttempts: nat := 2

  /** What one call of `tryGenerateWithModel` does: return the reply's text or
      throw an error with a message. */
  datatype CallOutcome = Replied(text: string) | Failed(message: string)

  /** The calls, answered by model name, image data and attempt number. */
  type Oracle = (string, string, nat) -> CallOutcome

  /** A rate-limit or quota error, retried on the same model. */
  predicate RateLimited(message: string)
  {
    Contains(message, "429") || Contains(message, "quota")
  }

  /** The loop's variables `text`, `modelUsed` and `lastError`, with the number of
      calls made so far. */
  datatype Attempts = Attempts(text: string, modelUsed: string, lastError: Option<string>, calls: nat)

  const Start: Attempts := Attempts("", "", None, 0)

  /** The inner loop over the attempts of model `mi`, from attempt `attempt` on:
      a reply (even an empty one) ends it, a rate-limit error moves to the next
      attempt, any other error ends it. */
  function ModelRun(call: Oracle, data: string, mi: nat, attempt: nat, st: Attempts): (r: Attempts)
    requires mi < |Models| && attempt <= MaxAttempts
    ensures st.calls <= r.calls <= st.calls + (MaxAttempts - attempt)
    ensures r.text != st.text ==>
              exists a :: attempt <= a < MaxAttempts && call(Models[mi], data, a) == Replied(r.text)
                            && r.modelUsed == Models[mi]
    decreases MaxAttempts - attempt
  {
    if attempt == MaxAttempts then st
    else
      var outcome := call(Models[mi], data, attempt);
      if outcome.Replied? then
        st.(text := outcome.text, modelUsed := Models[mi], calls := st.calls + 1)
      else
        var failed := st.(lastError := Some(outcome.message), calls := st.calls + 1);
        if RateLimited(outcome.message) then ModelRun(call, data, mi, attempt + 1, failed)
        else failed
  }

  /** The outer loop over the models from `mi` on, leaving at the first
      non-empty text. */
  function Run(call: Oracle, data: string, mi: nat, st: Attempts): (r: Attempts)
    requires mi <= |Models| && st.text == ""
    ensures st.calls <= r.calls <= st.calls + MaxAttempts * (|Models| - mi)
    ensures r.text != "" ==>
              exists m, a :: mi <= m < |Models| && 0 <= a < MaxAttempts
                               && call(Models[m], data, a) == Replied(r.text) && r.modelUsed == Models[m]
    decreases |Models| - mi
  {
    if mi == |Models| then st
    else
      var next := ModelRun(call, data, mi, 0, st);
      if next.text != "" then next else Run(call, data, mi + 1, next)
  }

  /** The outer loop of `POST` over the models, leaving at the first non-empty
      text. */
  method TryModels(call: Oracle, data: string) returns (text: string, modelUsed: string, lastError: Option<string>)
    ensures var r := Run(call, data, 0, Start);
      text == r.text && modelUsed == r.modelUsed && lastError == r.lastError
  {
    text, modelUsed, lastError := "", "", None;
    ghost var calls := 0;
    var mi := 0;
    while mi < |Models|
      invariant 0 <= mi <= |Models| && text == ""
      invariant Run(call, data, 0, Start) == Run(call, data, mi, Attempts(text, modelUsed, lastError, calls))
    {
      text, modelUsed, lastError, calls := TryModel(call, data, mi, text, modelUsed, lastError, calls);
      if text != "" {
        break;
      }
      mi := mi + 1;
    }
  }

  /** The inner loop of `POST` over the attempts of model `mi`, with `break` and
      `continue` as written. */
  method TryModel(call: Oracle, data: string, mi: nat, text0: string, modelUsed0: string,
                  lastError0: Option<string>, ghost calls0: nat)
    returns (text: string, modelUsed: string, lastError: Option<string>, ghost calls: nat)
    requires mi < |Models|
    ensures Attempts(text, modelUsed, lastError, calls)
         == ModelRun(call, data, mi, 0, Attempts(text0, modelUsed0, lastError0, calls0))
  {
    text, modelUsed, lastError, calls := text0, modelUsed0, lastError0, calls0;
    var attempt := 0;
    while attempt < MaxAttempts
      invariant 0 <= attempt <= MaxAttempts
      invariant ModelRun(call, data, mi, 0, Attempts(text0, modelUsed0, lastError0, calls0))
             == ModelRun(call, data, mi, attempt, Attempts(text, modelUsed, lastError, calls))
    {
      var outcome := call(Models[mi], data, attempt);
      calls := calls + 1;
      if outcome.Replied? {
        text := outcome.text;
        modelUsed := Models[mi];
        break;
      }
      lastError := Some(outcome.message);
      if RateLimited(outcome.message) {
        attempt := attempt + 1;
        continue;
      }
      break;
    }
  }

  /** A first reply with text is used at once: one call, the first model. */
  lemma FirstReplyWins(call: Oracle, data: string)
    requires call(Models[0], data, 0).Replied? && call(Models[0], data, 0).text != ""
    ensures var r := Run(call, data, 0, Start);
      r.text == call(Models[0], data, 0).text && r.modelUsed == Models[0] && r.calls == 1
  {
  }

  /** A rate-limit error retries the same model and is remembered. */
  lemma RateLimitRetries(call: Oracle, data: string, mi: nat, st: Attempts)
    requires mi < |Models|
    requires call(Models[mi], data, 0).Failed? && RateLimited(call(Models[mi], data, 0).message)
    ensures ModelRun(call, data, mi, 0, st)
         == ModelRun(call, data, mi, 1, st.(lastError := Some(call(Models[mi], data, 0).message), calls := st.calls + 1))
  {
  }

  /** Any other error abandons the model: its second attempt is never made and the
      loop goes on with the next model. */
  lemma OtherErrorMovesOn(call: Oracle, data: string, mi: nat, st: Attempts)
    requires mi < |Models| && st.text == ""
    requires call(Models[mi], data, 0).Failed? && !RateLimited(call(Models[mi], data, 0).message)
    ensures Run(call, data, mi, st)
         == Run(call, data, mi + 1, st.(lastError := Some(call(Models[mi], data, 0).message), calls := st.calls + 1))
  {
  }

  /** An empty reply ends the model's attempts but not the search. */
  lemma EmptyReplyMovesOn(call: Oracle, data: string, mi: nat, st: Attempts)
    requires mi < |Models| && st.text == ""
    requires call(Models[mi], data, 0) == Replied("")
    ensures Run(call, data, mi, st)
         == Run(call, data, mi + 1, st.(modelUsed := Models[mi], calls := st.calls + 1))
  {
  }

  // ---------------------------------------------------------------- the reply text

  /** `c.startsWith(p) ? c.slice(|p|) : c`. */
  function DropPrefix(c: string, p: string): (r: string)
    ensures r == c || (StartsWith(c, p) && r == c[|p|..])
  {
    if StartsWith(c, p) then c[|p|..] else c
  }

  /** `c.endsWith(p) ? c.slice(0, -|p|) : c`. */
  function DropSuffix(c: string, p: string): (r: string)
    ensures r == c || (EndsWith(c, p) && r == c[..|c| - |p|])
  {
    if EndsWith(c, p) then c[..|c| - |p|] else c
  }

  /** The text `StripFences` leaves. */
  function Unfenced(text: string): string
  {
    Trim(DropSuffix(DropPrefix(DropPrefix(Trim(text), "```json"), "```"), "```"))
  }

  /** The steps that clean up `text` before parsing: trim, drop a leading
      "```json", then a leading "```", then a trailing "```", trim again. */
  method StripFences(text: string) returns (clean: string)
    ensures clean == Unfenced(text)
  {
    clean := Trim(text);
    ghost var c0 := clean;
    if StartsWith(clean, "```json") {
      clean := clean[7..];
    }
    assert clean == DropPrefix(c0, "```json");
    ghost var c1 := clean;
    if StartsWith(clean, "```") {
      clean := clean[3..];
    }
    assert clean == DropPrefix(c1, "```");
    ghost var c2 := clean;
    if EndsWith(clean, "```") {
      clean := clean[..|clean| - 3];
    }
    assert clean == DropSuffix(c2, "```");
    clean := Trim(clean);
  }

  /** `Trim` returns a piece of its input. */
  lemma TrimSubstring(s: string)
    ensures IsSubstring(Trim(s), s)
  {
    TrimInside(s);
  }

  /** Dropping a prefix leaves a piece of the string. */
  lemma DropPrefixInside(c: string, p: string)
    ensures IsSubstring(DropPrefix(c, p), c)
  {
    var r := DropPrefix(c, p);
    assert r == c[|c| - |r|..|c|];
  }

  /** Dropping a suffix leaves a piece of the string. */
  lemma DropSuffixInside(c: string, p: string)
    ensures IsSubstring(DropSuffix(c, p), c)
  {
    var r := DropSuffix(c, p);
    assert r == c[0..|r|];
  }

  /** What is left is a piece of the reply, with no white space around it. */
  lemma UnfencedInside(text: string)
    ensures IsSubstring(Unfenced(text), text)
    ensures var u := Unfenced(text); u == [] || (!IsSpace(u[0]) && !IsSpace(u[|u| - 1]))
  {
    var c0 := Trim(text);
    var c1 := DropPrefix(c0, "```json");
    var c2 := DropPrefix(c1, "```");
    var c3 := DropSuffix(c2, "```");
    DropPrefixInside(c0, "```json");
    DropPrefixInside(c1, "```");
    DropSuffixInside(c2, "```");
    TrimSubstring(text);
    TrimSubstring(c3);
    SubstringTrans(c2, c1, c0);
    SubstringTrans(c3, c2, c0);
    SubstringTrans(Unfenced(text), c3, c0);
    SubstringTrans(Unfenced(text), c0, text);
  }

  /** Trimming removes white space put around a string that has none of its own. */
  lemma TrimPadded(a: string, j: string, b: string)
    requires forall k :: 0 <= k < |a| ==> IsSpace(a[k])
    requires forall k :: 0 <= k < |b| ==> IsSpace(b[k])
    requires j == [] || (!IsSpace(j[0]) && !IsSpace(j[|j| - 1]))
    ensures Trim(a + j + b) == j
  {
    var s := a + j + b;
    var i := Span(s, 0, IsSpace);
    if j != [] {
      assert s[|a|] == j[0];
      assert s[|a| + |j| - 1] == j[|j| - 1];
      assert i == |a|;
      var e := SpanBack(s, i, |s|, IsSpace);
      assert e == |a| + |j|;
      assert s[i..e] == j;
    } else {
      assert forall k :: 0 <= k < |s| ==> IsSpace(s[k]);
      assert i == |s|;
    }
  }

  /** A reply wrapped in a JSON code fence on lines of its own comes out as the
      fenced text. */
  lemma UnfencedRoundTrip(j: string)
    requires j == [] || (!IsSpace(j[0]) && !IsSpace(j[|j| - 1]))
    ensures Unfenced("```json\n" + j + "\n```") == j
  {
    var s := "```json\n" + j + "\n```";
    TrimNoOp(s);
    FenceOpenDropped(j);
    FenceCloseDropped(j);
    TrimPadded("\n", j, "\n");
  }

  /** The opening fence goes with the first `DropPrefix`; the second leaves the
      rest alone, since it starts with a line break. */
  lemma FenceOpenDropped(j: string)
    ensures var c1 := DropPrefix("```json\n" + j + "\n```", "```json");
      c1 == "\n" + j + "\n```" && DropPrefix(c1, "```") == c1
  {
    var s := "```json\n" + j + "\n```";
    assert s[..7] == "```json";
    var c1 := s[7..];
    assert c1 == "\n" + j + "\n```";
    assert c1[..3][0] == '\n';
  }

  /** The closing fence goes with the `DropSuffix`. */
  lemma FenceCloseDropped(j: string)
    ensures DropSuffix("\n" + j + "\n```", "```") == "\n" + j + "\n"
  {
    var c1 := "\n" + j + "\n```";
    assert c1[|c1| - 3..] == "```";
    assert c1[..|c1| - 3] == "\n" + j + "\n";
  }

  /** A reply without fences or surrounding white space comes out as it is. */
  lemma UnfencedPlain(j: string)
    requires j == [] || (!IsSpace(j[0]) && !IsSpace(j[|j| - 1]))
    requires !StartsWith(j, "```") && !EndsWith(j, "```")
    ensures Unfenced(j) == j
  {
    TrimNoOp(j);
    assert DropPrefix(j, "```json") == j;
  }

  // ---------------------------------------------------------------- date reformat

  /** `^\d{2}<sep>\d{2}<sep>\d{4}$`. */
  predicate DmyShape(s: string, sep: char)
  {
    && |s| == 10 && s[2] == sep && s[5] == sep
    && AllDigits(s[..2]) && AllDigits(s[3..5]) && AllDigits(s[6..])
  }

  /** A date of that shape splits into its three fields. */
  lemma DmySplit(s: string, sep: char)
    requires sep == '-' || sep == '/'
    requires DmyShape(s, sep)
    ensures SplitOn(s, sep) == [s[..2], s[3..5], s[6..]]
  {
    var parts := [s[..2], s[3..5], s[6..]];
    DigitsExclude(s[..2], sep);
    DigitsExclude(s[3..5], sep);
    DigitsExclude(s[6..], sep);
    assert parts[1..][1..] == [parts[2]];
    assert JoinWith(parts[1..][1..], sep) == s[6..];
    assert JoinWith(parts[1..], sep) == s[3..5] + [sep] + s[6..];
    assert JoinWith(parts, sep) == s[..2] + [sep] + JoinWith(parts[1..], sep);
    assert s == s[..2] + [sep] + (s[3..5] + [sep] + s[6..]);
    assert JoinWith(parts, sep) == s;
    SplitJoin(parts, sep);
  }

  /** `${y}-${m}-${d}` from `date.split(sep)`. */
  function YearFirst(date: string, sep: char): string
  {
    var parts := SplitOn(date, sep);
    if |parts| < 3 then date
    else parts[2] + "-" + parts[1] + "-" + parts[0]
  }

  /** The `formattedDate` rewrite: DD-MM-YYYY or DD/MM/YYYY becomes YYYY-MM-DD
      (the shape of a valid date string, section 2.3.5.2 of the WHATWG HTML
      Living Standard); anything else is passed on unchanged. */
  function ReorderDate(date: string): string
  {
    if DmyShape(date, '-') then YearFirst(date, '-')
    else if DmyShape(date, '/') then YearFirst(date, '/')
    else date
  }

  /** The YYYY-MM-DD shape. */
  predicate YmdShape(s: string)
  {
    && |s| == 10 && s[4] == '-' && s[7] == '-'
    && AllDigits(s[..4]) && AllDigits(s[5..7]) && AllDigits(s[8..])
  }

  /** A date of either shape is rewritten from its three fields. */
  lemma ReorderDateIs(date: string, sep: char)
    requires sep == '-' || sep == '/'
    requires DmyShape(date, sep)
    ensures ReorderDate(date) == date[6..] + "-" + date[3..5] + "-" + date[..2]
  {
    DmySplit(date, sep);
    assert sep == '/' ==> !DmyShape(date, '-');
  }

  /** Fields of four, two and two digits joined by hyphens have the YYYY-MM-DD
      shape and can be read back. */
  lemma YmdFields(y: string, m: string, d: string)
    requires |y| == 4 && |m| == 2 && |d| == 2
    requires AllDigits(y) && AllDigits(m) && AllDigits(d)
    ensures var r := y + "-" + m + "-" + d;
      YmdShape(r) && r[..4] == y && r[5..7] == m && r[8..] == d
  {
    var r := y + "-" + m + "-" + d;
    assert r[..4] == y;
    assert r[5..7] == m;
    assert r[8..] == d;
  }

  /** The rewrite moves the fields and nothing else: the result has the year,
      month and day of the input in YYYY-MM-DD order, from which the input is
      rebuilt with its own separator. */
  lemma ReorderDateFields(date: string, sep: char)
    requires sep == '-' || sep == '/'
    requires DmyShape(date, sep)
    ensures var r := ReorderDate(date);
      && YmdShape(r)
      && r[..4] == date[6..] && r[5..7] == date[3..5] && r[8..] == date[..2]
      && r[8..] + [sep] + r[5..7] + [sep] + r[..4] == date
  {
    ReorderDateIs(date, sep);
    YmdFields(date[6..], date[3..5], date[..2]);
    assert date == date[..2] + [sep] + date[3..5] + [sep] + date[6..];
  }

  /** Anything else passes through, and reordering twice is reordering once. */
  lemma ReorderDateOthers(date: string)
    ensures !DmyShape(date, '-') && !DmyShape(date, '/') ==> ReorderDate(date) == date
    ensures ReorderDate(ReorderDate(date)) == ReorderDate(date)
  {
    if DmyShape(date, '-') {
      ReorderDateFields(date, '-');
    } else if DmyShape(date, '/') {
      ReorderDateFields(date, '/');
    }
  }

  // ---------------------------------------------------------------- the response

  /** The fields of the parsed JSON reply the route reads. */
  datatype TicketJson = TicketJson(numbers: Option<seq<string>>, date: Option<string>,
                                   province: Option<string>, rawText: Option<string>)

  /** The request: a body that cannot be read (its error message), or the `image` field. */
  datatype Request = Unreadable(message: string) | Request(image: Option<string>)

  datatype OcrResponse = OcrResponse(
    status: nat,
    success: bool,
    numbers: seq<string>,
    date: Option<string>,
    province: Option<string>,
    rawText: Option<string>,
    error: Option<string>,
    modelUsed: Option<string>)

  function Failure(status: nat, message: string): OcrResponse
  {
    OcrResponse(status, false, [], None, None, None, Some(message), None)
  }

  const KeyMissing: string :=
    "Gemini API key chưa được cấu hình. Vui lòng thêm GEMINI_API_KEY vào Vercel Environment Variables."
  const NoImage: string := "Không có ảnh được gửi lên."
  const QuotaMessage: string :=
    "API đã hết quota. Vui lòng chờ vài giây và thử lại, hoặc chuyển sang chế độ Tesseract."

  /** The message when no model gave text, naming the last error. */
  function AllFailedMessage(lastError: Option<string>): string
  {
    var reason := if lastError.Some? && lastError.value != "" then lastError.value else "Unknown error";
    "Không thể kết nối Gemini AI. Vui lòng thử lại sau hoặc dùng chế độ Tesseract. (" + reason + ")"
  }

  /** The outer `catch`: a rate-limit message is replaced by a friendlier one. */
  function UserMessage(message: string): string
  {
    if RateLimited(message) then QuotaMessage else message
  }

  /** `text.match(/\b\d{6}\b/g)`, each number once: the fallback when the reply is
      not JSON. */
  function SixDigitNumbers(text: string): seq<string>
  {
    Dedupe(DigitWords(text, 6, 6))
  }

  /** The fallback lists each word-bounded six-digit run of the reply once. */
  lemma SixDigitNumbersExact(text: string, t: string)
    ensures Distinct(SixDigitNumbers(text))
    ensures t in SixDigitNumbers(text) <==> IsDigitToken(text, t, 6, 6)
  {
    DigitWordsExact(text, 6, 6, t);
  }

  /** The success response built from the model's text. */
  function Reply(text: string, modelUsed: string, parse: string -> Option<TicketJson>): OcrResponse
  {
    var parsed := parse(Unfenced(text));
    if parsed.None? then
      OcrResponse(200, true, SixDigitNumbers(text), None, None, Some(text), None, Some(modelUsed))
    else
      var j := parsed.value;
      var date := if j.date.Some? then Some(ReorderDate(j.date.value)) else None;
      var numbers := if j.numbers.Some? then j.numbers.value else [];
      OcrResponse(200, true, numbers, date, j.province, j.rawText, None, Some(modelUsed))
  }

  /** What `POST` answers. */
  function PostResponse(keyConfigured: bool, request: Request, call: Oracle,
                        parse: string -> Option<TicketJson>): OcrResponse
  {
    if !keyConfigured then Failure(500, KeyMissing)
    else if request.Unreadable? then Failure(500, UserMessage(request.message))
    else if request.image.None? || request.image.value == "" then Failure(400, NoImage)
    else
      var r := Run(call, StripDataUrl(request.image.value), 0, Start);
      if r.text == "" then Failure(429, AllFailedMessage(r.lastError))
      else Reply(r.text, r.modelUsed, parse)
  }

  /** `POST(request)`. */
  method Post(keyConfigured: bool, request: Request, call: Oracle,
              parse: string -> Option<TicketJson>) returns (response: OcrResponse)
    ensures response == PostResponse(keyConfigured, request, call, parse)
  {
    if !keyConfigured {
      return Failure(500, KeyMissing);
    }
    if request.Unreadable? {
      return Failure(500, UserMessage(request.message));
    }
    if request.image.None? || request.image.value == "" {
      return Failure(400, NoImage);
    }
    var data := StripDataUrl(request.image.value);
    var text, modelUsed, lastError := TryModels(call, data);
    if text == "" {
      return Failure(429, AllFailedMessage(lastError));
    }
    var clean := StripFences(text);
    var parsed := parse(clean);
    if parsed.None? {
      return OcrResponse(200, true, SixDigitNumbers(text), None, None, Some(text), None, Some(modelUsed));
    }
    var j := parsed.value;
    var date := if j.date.Some? then Some(ReorderDate(j.date.value)) else None;
    var numbers := if j.numbers.Some? then j.numbers.value else [];
    response := OcrResponse(200, true, numbers, date, j.province, j.rawText, None, Some(modelUsed));
  }

  /** A missing key fails with 500 and a missing image with 400, whatever the
      models would have answered: no model is called. */
  lemma InputChecks(keyConfigured: bool, request: Request, call1: Oracle, call2: Oracle,
                    parse: string -> Option<TicketJson>)
    requires !keyConfigured || (request.Request? && (request.image.None? || request.image.value == ""))
    ensures PostResponse(keyConfigured, request, call1, parse) == PostResponse(keyConfigured, request, call2, parse)
    ensures var r := PostResponse(keyConfigured, request, call1, parse);
      !r.success && r.numbers == [] && r.status == (if keyConfigured then 400 else 500)
  {
  }

  /** When no model gives text the answer is a 429 failure naming the last
      error; otherwise it is a success from the model that gave it. */
  lemma ModelOutcome(request: Request, call: Oracle, parse: string -> Option<TicketJson>)
    requires request.Request? && request.image.Some? && request.image.value != ""
    ensures var r := Run(call, StripDataUrl(request.image.value), 0, Start);
      var resp := PostResponse(true, request, call, parse);
      && (r.text == "" ==> resp == Failure(429, AllFailedMessage(r.lastError)))
      && (r.text != "" ==> (resp.success && resp.status == 200 && resp.modelUsed == Some(r.modelUsed)
                            && r.modelUsed in Models && r.calls <= 4))
  {
  }

  /** A reply that is not JSON still succeeds, with the six-digit numbers of the
      raw reply, each once. */
  lemma FallbackNumbers(text: string, modelUsed: string, parse: string -> Option<TicketJson>, t: string)
    requires parse(Unfenced(text)).None?
    ensures Reply(text, modelUsed, parse).success
    ensures Reply(text, modelUsed, parse).rawText == Some(text)
    ensures t in Reply(text, modelUsed, parse).numbers <==> IsDigitToken(text, t, 6, 6)
  {
    SixDigitNumbersExact(text, t);
  }
}
