/** The search entry points of async_ddgs.go: argument defaults, the session
    token, the payloads, the page offsets, and the fan-out of page tasks over
    one shared aggregator. The HTTP client and the decoders are parameters
    (`Env`); a request is answered by a function of the request, so the page
    tasks see the same responses whatever order they run in. */
module Search {
  import opened Wrappers
  import opened Strings
  import opened Utils
  import opened Extractors
  import opened Aggregation
  import opened Filters

  /** An HTTP request as agetURL receives it: verb, URL and query
      parameters. */
  datatype Request = Request(verb: string, url: string, params: map<string, string>)

  /** What the searches take from outside: the HTTP client (None is a
      transport or read error) and the foreign decoders: encoding/json into
      `[]map[string]any` and into `any`, htmlquery's `//div[h2]` blocks and
      lite table rows, html.UnescapeString, `%v` and the news date format. */
  datatype Env = Env(
    fetch: Request -> Option<string>,
    decodeRows: string -> Option<seq<map<string, Json>>>,
    decodeJson: string -> Option<Json>,
    blocks: string -> Option<seq<HtmlBlock>>,
    liteRows: string -> Option<seq<LiteRow>>,
    unescape: string -> string,
    show: Option<Json> -> string,
    date: Option<Json> -> string)

  /** The empty argument replaced by its default. */
  function Default(s: string, d: string): (r: string)
    ensures r == (if s == "" then d else s)
  {
    if s == "" then d else s
  }

  /** `lo.Min([]int{a, b})`. */
  function Min(a: int, b: int): (r: int)
    ensures r <= a && r <= b && (r == a || r == b)
  {
    if a <= b then a else b
  }

  // ---------------------------------------------------------------------
  // The session token (agetVqd)

  function VqdRequest(keywords: string): Request {
    Request("POST", "https://duckduckgo.com", map["q" := keywords])
  }

  /** The token agetVqd obtains: a failed request is an error, otherwise
      extractVQD decides. */
  function VqdOf(env: Env, keywords: string): (r: Result<string, Error>)
    ensures r.Failure? ==> r.error == TransportError || r.error == TokenNotFound(keywords)
  {
    match env.fetch(VqdRequest(keywords))
    case None => Failure(TransportError)
    case Some(body) => Vqd(body, keywords)
  }

  method GetVqd(env: Env, keywords: string) returns (r: Result<string, Error>)
    ensures r == VqdOf(env, keywords)
  {
    var body := env.fetch(VqdRequest(keywords));
    if body.None? {
      return Failure(TransportError);
    }
    r := ExtractVQD(body.value, keywords);
  }

  // ---------------------------------------------------------------------
  // Pages

  /** The offsets of the pages after page 0: none when maxResults <= 0,
      otherwise rangeFunc(start, min(maxResults, limit), step). */
  function Offsets(maxResults: int, limit: int, start: int, step: int): seq<int>
    requires step > 0
  {
    if maxResults > 0 then Range(start, Min(maxResults, limit), step) else []
  }

  /** The maxResults the final slice uses: clamped only when positive. */
  function Clamped(maxResults: int, limit: int): (r: int)
    ensures maxResults > 0 ==> r <= maxResults && r <= limit && (r == maxResults || r == limit)
    ensures maxResults > 0 && limit > 0 ==> r > 0
    ensures maxResults <= 0 ==> r == maxResults
  {
    if maxResults > 0 then Min(maxResults, limit) else maxResults
  }

  /** The offset page p is fetched with: 0 for page 0, offset p-1 after. */
  function OffsetOf(offsets: seq<int>, p: nat): int
    requires p <= |offsets|
  {
    if p == 0 then 0 else offsets[p - 1]
  }

  /** What each page task walks, page by page. */
  function PageInputs<Row>(offsets: seq<int>, page: int -> PageRows<Row>): (r: seq<PageRows<Row>>)
    ensures |r| == |offsets| + 1
    ensures forall p :: 0 <= p < |r| ==> r[p] == page(OffsetOf(offsets, p))
  {
    seq(|offsets| + 1, p requires 0 <= p <= |offsets| => page(OffsetOf(offsets, p)))
  }

  /** The request of one page: the shared payload with `s` set to the page's
      offset. */
  function PageRequest(verb: string, url: string, payload: map<string, string>, s: int): (r: Request)
    ensures r.verb == verb && r.url == url
    ensures r.params.Keys == payload.Keys + {"s"}
    ensures r.params["s"] == DecimalInt(s)
    ensures forall k :: k in payload && k != "s" ==> r.params[k] == payload[k]
  {
    Request(verb, url, payload["s" := DecimalInt(s)])
  }

  /** Pages fetched at different offsets send different requests. */
  lemma PageRequestsDiffer(verb: string, url: string, payload: map<string, string>, s: int, t: int)
    requires s != t
    ensures PageRequest(verb, url, payload, s) != PageRequest(verb, url, payload, t)
  {
    if PageRequest(verb, url, payload, s) == PageRequest(verb, url, payload, t) {
      DecimalIntInjective(s, t);
    }
  }

  /** An `order` that runs each of the pages 0 .. n-1 exactly once. */
  predicate IsSchedule(order: seq<nat>, n: nat) {
    |order| == n && Distinct(order) && forall j :: 0 <= j < |order| ==> order[j] < n
  }

  /** No task panics, and every page, walked on its own, accepts fewer than
      100 records (after other pages it accepts no more: WalkFromEmpty). */
  predicate Calm<Row, R>(inputs: seq<PageRows<Row>>, key: Row -> Option<string>, build: (Row, string) -> Option<R>) {
    forall p :: 0 <= p < |inputs| ==>
      !inputs[p].Panicked? && (inputs[p].Rows? ==> |Walk(inputs[p].rows, {}, key, build).records| < Band)
  }

  /** The result of a whole search once its inputs are known: a panic
      crashes the program, otherwise the non-nil slots are sliced. */
  function Collected<Row, R>(capacity: nat, inputs: seq<PageRows<Row>>, order: seq<nat>,
                             walk: (seq<Row>, set<string>) -> Page<R>, start: int, end: int): (r: Result<seq<R>, Error>)
    requires Scheduled(order, inputs)
    ensures r.Failure? ==> r.error == Panic
    ensures r.Success? && end <= 0 ==> r.value == []
    ensures r.Success? && end > 0 ==> |r.value| <= end
  {
    var st := Run(order, inputs, Initial(capacity), walk);
    if st.crashed then Failure(Panic) else Success(LoSlice(Filter(st.slots), start, end))
  }

  /** Allocate the slots, run the page tasks in `order`, compact. */
  method Collect<Row, R>(capacity: nat, inputs: seq<PageRows<Row>>, order: seq<nat>,
                         key: Row -> Option<string>, build: (Row, string) -> Option<R>, start: int, end: int)
    returns (r: Result<seq<R>, Error>)
    requires Scheduled(order, inputs)
    ensures r == Collected(capacity, inputs, order, GenericWalk(key, build), start, end)
  {
    var agg := new Aggregator<R>(capacity);
    var crashed := agg.RunPages(order, inputs, key, build);
    if crashed {
      return Failure(Panic);
    }
    var out := agg.Compact(start, end);
    return Success(out);
  }

  /** The same for the lite backend's closure. */
  method CollectLite(inputs: seq<PageRows<LiteRow>>, order: seq<nat>, unescape: string -> string, start: int, end: int)
    returns (r: Result<seq<TextResult>, Error>)
    requires Scheduled(order, inputs)
    ensures r == Collected(TextCapacity, inputs, order, LiteWalker(unescape), start, end)
  {
    var agg := new Aggregator<TextResult>(TextCapacity);
    var crashed := RunLitePages(agg, order, inputs, unescape);
    if crashed {
      return Failure(Panic);
    }
    var out := agg.Compact(start, end);
    return Success(out);
  }

  /** A calm search lists page 0's records, then page 1's, and so on, each
      page's in its emission order, whatever order the pages ran in; only
      then is the list sliced. */
  lemma CollectedInPageOrder<Row, R>(capacity: nat, inputs: seq<PageRows<Row>>, order: seq<nat>,
                                     key: Row -> Option<string>, build: (Row, string) -> Option<R>, start: int, end: int)
    requires IsSchedule(order, |inputs|) && |inputs| * Band <= capacity && Calm(inputs, key, build)
    ensures var st := Run(order, inputs, Initial(capacity), GenericWalk(key, build));
      Collected(capacity, inputs, order, GenericWalk(key, build), start, end)
        == Success(LoSlice(Flatten(st.bands, |inputs|), start, end))
  {
    forall p, cache | 0 <= p < |inputs| && inputs[p].Rows?
      ensures |GenericWalk(key, build)(inputs[p].rows, cache).records| < Band
    {
      assert GenericWalk(key, build)(inputs[p].rows, cache) == Walk(inputs[p].rows, cache, key, build);
      WalkFromEmpty(inputs[p].rows, cache, key, build);
    }
    assert WalksFit(inputs, GenericWalk(key, build));
    RunLayout(order, inputs, capacity, GenericWalk(key, build));
    RunOrder(order, inputs, capacity, GenericWalk(key, build));
  }

  /** The lite closure writes at most one record per page, so only a panic
      ends a lite search early. */
  lemma LiteInPageOrder(inputs: seq<PageRows<LiteRow>>, order: seq<nat>, unescape: string -> string, start: int, end: int)
    requires IsSchedule(order, |inputs|) && |inputs| * Band <= TextCapacity
    requires forall p :: 0 <= p < |inputs| ==> !inputs[p].Panicked?
    ensures var st := Run(order, inputs, Initial(TextCapacity), LiteWalker(unescape));
      Collected(TextCapacity, inputs, order, LiteWalker(unescape), start, end)
        == Success(LoSlice(Flatten(st.bands, |inputs|), start, end))
  {
    forall p, cache | 0 <= p < |inputs| && inputs[p].Rows?
      ensures |LiteWalker(unescape)(inputs[p].rows, cache).records| < Band
    {
      assert LiteWalker(unescape)(inputs[p].rows, cache) == LiteWalk(inputs[p].rows, cache, unescape);
    }
    assert WalksFit(inputs, LiteWalker(unescape));
    RunLayout(order, inputs, TextCapacity, LiteWalker(unescape));
    RunOrder(order, inputs, TextCapacity, LiteWalker(unescape));
  }

  // ---------------------------------------------------------------------
  // Page counts

  const TextCapacity: nat := 1100
  const ImagesCapacity: nat := 600
  const VideosCapacity: nat := 700

  function TextOffsets(maxResults: int): seq<int> { Offsets(maxResults, 500, 23, 50) }
  function ImagesOffsets(maxResults: int): seq<int> { Offsets(maxResults, 500, 100, 100) }
  function VideosOffsets(maxResults: int): seq<int> { Offsets(maxResults, 400, 59, 59) }

  /** The last offset is below the clamp, so there are few of them. */
  lemma {:induction false} OffsetsBound(maxResults: int, limit: int, start: int, step: int)
    requires step > 0
    ensures var o := Offsets(maxResults, limit, start, step);
      |o| == 0 || start + (|o| - 1) * step < limit
  {
    var o := Offsets(maxResults, limit, start, step);
    if |o| > 0 {
      RangeAt(start, Min(maxResults, limit), step, |o| - 1);
    }
  }

  /** With the last of n offsets below the clamp, and offset `bound` (counted
      from 0) already at or past it, there are at most `bound` offsets. */
  lemma OffsetsCount(n: nat, limit: int, start: int, step: int, bound: nat)
    requires step > 0 && start + bound * step >= limit
    requires n == 0 || start + (n - 1) * step < limit
    ensures n <= bound
  {
    if n > bound {
      MulMonotone(n - 1, bound, step);
    }
  }

  lemma {:induction false} MulMonotone(a: int, b: int, c: nat)
    requires a >= b
    ensures a * c >= b * c
    decreases c
  {
    if c > 0 {
      MulMonotone(a, b, c - 1);
      assert a * c == a * (c - 1) + a && b * c == b * (c - 1) + b;
    }
  }

  /** Text searches fetch at most 11 pages, so every page's band fits in the
      1100 slots; with maxResults <= 0 only page 0 is fetched. Page i+1 is
      fetched at offset 23 + 50*i. */
  lemma TextPagesFit(maxResults: int)
    ensures |TextOffsets(maxResults)| <= 10
    ensures (|TextOffsets(maxResults)| + 1) * Band <= TextCapacity
    ensures maxResults <= 0 ==> TextOffsets(maxResults) == []
    ensures forall i :: 0 <= i < |TextOffsets(maxResults)| ==> TextOffsets(maxResults)[i] == 23 + 50 * i
  {
    OffsetsBound(maxResults, 500, 23, 50);
    OffsetsCount(|TextOffsets(maxResults)|, 500, 23, 50, 10);
    forall i | 0 <= i < |TextOffsets(maxResults)| ensures TextOffsets(maxResults)[i] == 23 + 50 * i {
      RangeAt(23, Min(maxResults, 500), 50, i);
    }
  }

  /** Image searches fetch at most 5 pages into 600 slots; page i+1 is
      fetched at offset 100 + 100*i. */
  lemma ImagesPagesFit(maxResults: int)
    ensures |ImagesOffsets(maxResults)| <= 4
    ensures (|ImagesOffsets(maxResults)| + 1) * Band <= ImagesCapacity
    ensures maxResults <= 0 ==> ImagesOffsets(maxResults) == []
    ensures forall i :: 0 <= i < |ImagesOffsets(maxResults)| ==> ImagesOffsets(maxResults)[i] == 100 + 100 * i
  {
    OffsetsBound(maxResults, 500, 100, 100);
    OffsetsCount(|ImagesOffsets(maxResults)|, 500, 100, 100, 4);
    forall i | 0 <= i < |ImagesOffsets(maxResults)| ensures ImagesOffsets(maxResults)[i] == 100 + 100 * i {
      RangeAt(100, Min(maxResults, 500), 100, i);
    }
  }

  /** Video and news searches fetch at most 7 pages into 700 slots; page i+1
      is fetched at offset 59 + 59*i. */
  lemma VideosPagesFit(maxResults: int)
    ensures |VideosOffsets(maxResults)| <= 6
    ensures (|VideosOffsets(maxResults)| + 1) * Band <= VideosCapacity
    ensures maxResults <= 0 ==> VideosOffsets(maxResults) == []
    ensures forall i :: 0 <= i < |VideosOffsets(maxResults)| ==> VideosOffsets(maxResults)[i] == 59 + 59 * i
  {
    OffsetsBound(maxResults, 400, 59, 59);
    OffsetsCount(|VideosOffsets(maxResults)|, 400, 59, 59, 6);
    forall i | 0 <= i < |VideosOffsets(maxResults)| ensures VideosOffsets(maxResults)[i] == 59 + 59 * i {
      RangeAt(59, Min(maxResults, 400), 59, i);
    }
  }

  /** The offsets exactly as the entry points compute them: rangeFunc is
      called only when maxResults is positive, after clamping it. */
  method PageOffsets(maxResults: int, limit: int, start: int, step: int) returns (m: int, offsets: seq<int>)
    requires step > 0
    ensures m == Clamped(maxResults, limit) && offsets == Offsets(maxResults, limit, start, step)
  {
    m, offsets := maxResults, [];
    if m > 0 {
      m := Min(m, limit);
      offsets := RangeFunc(start, m, step);
    }
  }

  // ---------------------------------------------------------------------
  // Payloads

  /** `payload["df"] = timelimit` when a time limit is given. */
  function WithTimelimit(payload: map<string, string>, timelimit: string): (r: map<string, string>)
    ensures r.Keys == payload.Keys + (if timelimit != "" then {"df"} else {})
    ensures forall k :: k in payload && k != "df" ==> r[k] == payload[k]
    ensures timelimit != "" ==> r["df"] == timelimit
  {
    if timelimit != "" then payload["df" := timelimit] else payload
  }

  /** A `safesearchBase[strings.ToLower(safesearch)]` lookup: the code for
      on, moderate or off, and "" (Go's zero value) for anything else. */
  function SafeCode(on: string, moderate: string, off: string, safesearch: string): string {
    var lower := ToLower(safesearch);
    if lower == "on" then on else if lower == "moderate" then moderate else if lower == "off" then off else ""
  }

  /** The safesearch lookup ignores ASCII case. */
  lemma SafeCodeIgnoresCase(on: string, moderate: string, off: string, safesearch: string)
    ensures SafeCode(on, moderate, off, safesearch) == SafeCode(on, moderate, off, ToLower(safesearch))
  {
    ToLowerIdempotent(safesearch);
  }

  /** The api payload: the region three times, the token, `a=ftsa`, the
      safesearch parameter and the time limit. */
  function ApiPayload(keywords: string, region: string, safesearch: string, timelimit: string, vqd: string): map<string, string> {
    var base := map["q" := keywords, "kl" := region, "l" := region, "vqd" := vqd, "bing_market" := region, "a" := "ftsa"];
    var lower := ToLower(safesearch);
    var safe :=
      if lower == "moderate" then base["ex" := "-1"]
      else if lower == "off" then base["ex" := "-2"]
      else if lower == "on" then base["p" := "1"]
      else base;
    WithTimelimit(safe, timelimit)
  }

  /** The api backend's safesearch: moderate sends ex=-1, off ex=-2, on p=1,
      in any letter case; any other value sends neither parameter. */
  lemma ApiSafeSearch(keywords: string, region: string, safesearch: string, timelimit: string, vqd: string)
    ensures var p := ApiPayload(keywords, region, safesearch, timelimit, vqd);
      var lower := ToLower(safesearch);
      && ("ex" in p <==> lower == "moderate" || lower == "off")
      && ("p" in p <==> lower == "on")
      && (lower == "moderate" ==> p["ex"] == "-1")
      && (lower == "off" ==> p["ex"] == "-2")
      && (lower == "on" ==> p["p"] == "1")
  {
  }

  /** The api payload always carries the keywords, the token and the region
      (as kl, l and bing_market), and df exactly when a time limit is set. */
  lemma ApiPayloadFields(keywords: string, region: string, safesearch: string, timelimit: string, vqd: string)
    ensures var p := ApiPayload(keywords, region, safesearch, timelimit, vqd);
      && ("df" in p <==> timelimit != "")
      && p["q"] == keywords && p["vqd"] == vqd && p["kl"] == region && p["l"] == region && p["bing_market"] == region
  {
  }

  /** The html payload; the token is sent only when one was fetched. */
  function HtmlPayload(keywords: string, region: string, safesearch: string, timelimit: string, vqd: Option<string>): (r: map<string, string>)
    ensures "vqd" in r <==> vqd.Some?
    ensures "p" in r && r["p"] == SafeCode("1", "-1", "-2", safesearch)
  {
    var p := WithTimelimit(map["q" := keywords, "kl" := region, "p" := SafeCode("1", "-1", "-2", safesearch), "o" := "json", "api" := "d.js"], timelimit);
    if vqd.Some? then p["vqd" := vqd.value] else p
  }

  /** The lite payload carries no safesearch and no token. */
  function LitePayload(keywords: string, region: string, timelimit: string): (r: map<string, string>)
    ensures r.Keys == {"q", "o", "api", "kl"} + (if timelimit != "" then {"df"} else {})
  {
    WithTimelimit(map["q" := keywords, "o" := "json", "api" := "d.js", "kl" := region], timelimit)
  }

  /** The images payload: on and moderate are both strict (1), off is -1;
      the filter string is sent only when it is not empty. */
  function ImagesPayload(keywords: string, region: string, safesearch: string, vqd: string, f: string): (r: map<string, string>)
    ensures "f" in r <==> f != ""
    ensures "f" in r ==> r["f"] == f
    ensures "p" in r && r["p"] == SafeCode("1", "1", "-1", safesearch)
  {
    var p := map["l" := region, "o" := "json", "q" := keywords, "vqd" := vqd, "p" := SafeCode("1", "1", "-1", safesearch)];
    if |f| > 0 then p["f" := f] else p
  }

  /** The videos payload: on 1, moderate -1, off -2; the filter string only
      when it is not empty. */
  function VideosPayload(keywords: string, region: string, safesearch: string, vqd: string, f: string): (r: map<string, string>)
    ensures "f" in r <==> f != ""
    ensures "f" in r ==> r["f"] == f
    ensures "p" in r && r["p"] == SafeCode("1", "-1", "-2", safesearch)
  {
    var p := map["l" := region, "o" := "json", "q" := keywords, "vqd" := vqd, "p" := SafeCode("1", "-1", "-2", safesearch)];
    if |f| > 0 then p["f" := f] else p
  }

  /** The news payload: `noamp=1`, safesearch as for videos, the time
      limit as `df`. */
  function NewsPayload(keywords: string, region: string, safesearch: string, timelimit: string, vqd: string): (r: map<string, string>)
    ensures "noamp" in r && r["noamp"] == "1" && ("df" in r <==> timelimit != "")
    ensures "p" in r && r["p"] == SafeCode("1", "-1", "-2", safesearch)
  {
    WithTimelimit(map["l" := region, "o" := "json", "noamp" := "1", "q" := keywords, "vqd" := vqd,
                      "p" := SafeCode("1", "-1", "-2", safesearch)], timelimit)
  }

  // ---------------------------------------------------------------------
  // What one page task gets to walk

  const ApiUrl: string := "https://links.duckduckgo.com/d.js"
  const HtmlUrl: string := "https://html.duckduckgo.com/html"
  const LiteUrl: string := "https://lite.duckduckgo.com/lite/"
  const ImagesUrl: string := "https://duckduckgo.com/i.js"
  const VideosUrl: string := "https://duckduckgo.com/v.js"
  const NewsUrl: string := "https://duckduckgo.com/news.js"

  /** An api page: a failed request or a failed extraction or decoding
      gives no rows; a slice-bounds panic in textExtractJSON crashes. */
  function ApiPage(env: Env, payload: map<string, string>, keywords: string, s: int): (r: PageRows<map<string, Json>>)
    ensures r.Panicked? ==> env.fetch(PageRequest("GET", ApiUrl, payload, s)).Some?
  {
    match env.fetch(PageRequest("GET", ApiUrl, payload, s))
    case None => NoRows
    case Some(body) =>
      match TextExtractJSON(body, keywords)
      case Failure(e) => if e == Panic then Panicked else NoRows
      case Success(data) =>
        match env.decodeRows(data)
        case None => NoRows
        case Some(rows) => Rows(rows)
  }

  /** An html or lite page: the "no results" marker or a failed request or
      parse gives no rows. */
  function MarkedPage<Row>(body: Option<string>, marker: string, parse: string -> Option<seq<Row>>): (r: PageRows<Row>)
    ensures !r.Panicked?
    ensures body.Some? && Contains(body.value, marker) ==> r == NoRows
  {
    match body
    case None => NoRows
    case Some(b) =>
      if Contains(b, marker) then NoRows
      else match parse(b)
        case None => NoRows
        case Some(rows) => Rows(rows)
  }

  /** An images, videos or news page: the array under `results` of a
      decoded JSON object; anything else gives no rows. */
  function JsonPage(env: Env, url: string, payload: map<string, string>, s: int): (r: PageRows<Json>)
    ensures !r.Panicked?
    ensures var body := env.fetch(PageRequest("GET", url, payload, s));
      var decoded := if body.Some? then env.decodeJson(body.value) else None;
      && (r.Rows? <==> decoded.Some? && decoded.value.JObject? && "results" in decoded.value.fields
                       && decoded.value.fields["results"].JArray?)
      && (r.Rows? ==> r.rows == decoded.value.fields["results"].items)
  {
    match env.fetch(PageRequest("GET", url, payload, s))
    case None => NoRows
    case Some(body) =>
      match env.decodeJson(body)
      case Some(JObject(m)) =>
        (match Lookup(m, "results")
         case Some(JArray(items)) => Rows(items)
         case _ => NoRows)
      case _ => NoRows
  }

  /** An html page, marked "No  results." when there are none. */
  function HtmlPage(env: Env, payload: map<string, string>, s: int): PageRows<HtmlBlock> {
    MarkedPage(env.fetch(PageRequest("POST", HtmlUrl, payload, s)), "No  results.", env.blocks)
  }

  /** A lite page, marked "No more results." when there are none. */
  function LitePage(env: Env, payload: map<string, string>, s: int): PageRows<LiteRow> {
    MarkedPage(env.fetch(PageRequest("POST", LiteUrl, payload, s)), "No more results.", env.liteRows)
  }

  function ApiInputs(env: Env, payload: map<string, string>, keywords: string, offsets: seq<int>): seq<PageRows<map<string, Json>>> {
    PageInputs(offsets, s => ApiPage(env, payload, keywords, s))
  }

  function HtmlInputs(env: Env, payload: map<string, string>, offsets: seq<int>): seq<PageRows<HtmlBlock>> {
    PageInputs(offsets, s => HtmlPage(env, payload, s))
  }

  function LiteInputs(env: Env, payload: map<string, string>, offsets: seq<int>): seq<PageRows<LiteRow>> {
    PageInputs(offsets, s => LitePage(env, payload, s))
  }

  function JsonInputs(env: Env, url: string, payload: map<string, string>, offsets: seq<int>): seq<PageRows<Json>> {
    PageInputs(offsets, s => JsonPage(env, url, payload, s))
  }

  /** A text search runs page 0 at offset 0 and page i+1 at offset
      23 + 50*i, whichever backend fetches them. */
  lemma TextInputsAt(env: Env, payload: map<string, string>, keywords: string, maxResults: int)
    ensures var o := TextOffsets(maxResults);
      var api := ApiInputs(env, payload, keywords, o);
      var html := HtmlInputs(env, payload, o);
      var lite := LiteInputs(env, payload, o);
      && |api| == |html| == |lite| == |o| + 1
      && api[0] == ApiPage(env, payload, keywords, 0) && html[0] == HtmlPage(env, payload, 0) && lite[0] == LitePage(env, payload, 0)
      && forall i :: 0 <= i < |o| ==>
           && api[i + 1] == ApiPage(env, payload, keywords, 23 + 50 * i)
           && html[i + 1] == HtmlPage(env, payload, 23 + 50 * i)
           && lite[i + 1] == LitePage(env, payload, 23 + 50 * i)
  {
    TextPagesFit(maxResults);
  }

  /** An image search runs page 0 at offset 0 and page i+1 at offset
      100 + 100*i. */
  lemma ImagesInputsAt(env: Env, payload: map<string, string>, maxResults: int)
    ensures var o := ImagesOffsets(maxResults);
      var inputs := JsonInputs(env, ImagesUrl, payload, o);
      && |inputs| == |o| + 1 && inputs[0] == JsonPage(env, ImagesUrl, payload, 0)
      && forall i :: 0 <= i < |o| ==> inputs[i + 1] == JsonPage(env, ImagesUrl, payload, 100 + 100 * i)
  {
    ImagesPagesFit(maxResults);
  }

  /** A video or news search runs page 0 at offset 0 and page i+1 at offset
      59 + 59*i. */
  lemma VideosInputsAt(env: Env, url: string, payload: map<string, string>, maxResults: int)
    ensures var o := VideosOffsets(maxResults);
      var inputs := JsonInputs(env, url, payload, o);
      && |inputs| == |o| + 1 && inputs[0] == JsonPage(env, url, payload, 0)
      && forall i :: 0 <= i < |o| ==> inputs[i + 1] == JsonPage(env, url, payload, 59 + 59 * i)
  {
    VideosPagesFit(maxResults);
  }

  // ---------------------------------------------------------------------
  // text, api backend

  /** textAPI: keywords are mandatory; region and safesearch get their
      defaults; the token is fetched; then the pages run and the first
      maxResults records are kept. */
  function TextApiSpec(env: Env, keywords: string, region: string, safesearch: string, timelimit: string,
                       maxResults: int, order: seq<nat>): (r: Result<seq<TextResult>, Error>)
    requires IsSchedule(order, |TextOffsets(maxResults)| + 1)
    ensures keywords == "" <==> r == Failure(MissingKeywords)
    ensures r.Failure? ==> r.error in {MissingKeywords, TransportError, TokenNotFound(keywords), Panic}
    ensures r.Success? ==> |r.value| <= 500 && (maxResults <= 0 ==> r.value == []) && (maxResults > 0 ==> |r.value| <= maxResults)
  {
    if keywords == "" then Failure(MissingKeywords)
    else match VqdOf(env, keywords)
      case Failure(e) => Failure(e)
      case Success(vqd) =>
        var payload := ApiPayload(keywords, Default(region, "wt-wt"), Default(safesearch, "moderate"), timelimit, vqd);
        Collected(TextCapacity, ApiInputs(env, payload, keywords, TextOffsets(maxResults)), order,
                  GenericWalk(ApiKey(keywords), ApiBuild(env.unescape)), 0, Clamped(maxResults, 500))
  }

  method TextApi(env: Env, keywords: string, region: string, safesearch: string, timelimit: string,
                 maxResults: int, order: seq<nat>) returns (r: Result<seq<TextResult>, Error>)
    requires IsSchedule(order, |TextOffsets(maxResults)| + 1)
    ensures r == TextApiSpec(env, keywords, region, safesearch, timelimit, maxResults, order)
  {
    if keywords == "" {
      return Failure(MissingKeywords);
    }
    var region' := Default(region, "wt-wt");
    var safesearch' := Default(safesearch, "moderate");
    var vqd := GetVqd(env, keywords);
    if vqd.Failure? {
      return Failure(vqd.error);
    }
    var payload := ApiPayload(keywords, region', safesearch', timelimit, vqd.value);
    var m, offsets := PageOffsets(maxResults, 500, 23, 50);
    var inputs := ApiInputs(env, payload, keywords, offsets);
    r := Collect(TextCapacity, inputs, order, ApiKey(keywords), ApiBuild(env.unescape), 0, m);
  }

  /** A calm api search returns the first maxResults records of page 0,
      page 1, ... in that order, whatever order the pages ran in. */
  lemma TextApiInPageOrder(env: Env, keywords: string, region: string, safesearch: string, timelimit: string,
                           maxResults: int, order: seq<nat>, vqd: string)
    requires IsSchedule(order, |TextOffsets(maxResults)| + 1)
    requires keywords != "" && VqdOf(env, keywords) == Success(vqd)
    requires Calm(ApiInputs(env, ApiPayload(keywords, Default(region, "wt-wt"), Default(safesearch, "moderate"), timelimit, vqd),
                            keywords, TextOffsets(maxResults)), ApiKey(keywords), ApiBuild(env.unescape))
    ensures var inputs := ApiInputs(env, ApiPayload(keywords, Default(region, "wt-wt"), Default(safesearch, "moderate"), timelimit, vqd),
                                    keywords, TextOffsets(maxResults));
      var st := Run(order, inputs, Initial(TextCapacity), GenericWalk(ApiKey(keywords), ApiBuild(env.unescape)));
      TextApiSpec(env, keywords, region, safesearch, timelimit, maxResults, order)
        == Success(LoSlice(Flatten(st.bands, |inputs|), 0, Clamped(maxResults, 500)))
  {
    var inputs := ApiInputs(env, ApiPayload(keywords, Default(region, "wt-wt"), Default(safesearch, "moderate"), timelimit, vqd),
                            keywords, TextOffsets(maxResults));
    TextPagesFit(maxResults);
    CollectedInPageOrder(TextCapacity, inputs, order, ApiKey(keywords), ApiBuild(env.unescape), 0, Clamped(maxResults, 500));
  }

  // ---------------------------------------------------------------------
  // text, html backend

  /** textHTML with the final slice given: the token is fetched only when
      maxResults > 20, and only then sent. */
  function TextHtmlSliced(env: Env, keywords: string, region: string, safesearch: string, timelimit: string,
                          maxResults: int, order: seq<nat>, start: int, end: int): (r: Result<seq<TextResult>, Error>)
    requires IsSchedule(order, |TextOffsets(maxResults)| + 1)
    ensures keywords == "" <==> r == Failure(MissingKeywords)
    ensures r.Failure? ==> r.error in {MissingKeywords, TransportError, TokenNotFound(keywords), Panic}
    ensures maxResults <= 20 ==> (r.Failure? ==> r.error in {MissingKeywords, Panic})
  {
    if keywords == "" then Failure(MissingKeywords)
    else if maxResults > 20 && VqdOf(env, keywords).Failure? then Failure(VqdOf(env, keywords).error)
    else
      var vqd := if maxResults > 20 then Some(VqdOf(env, keywords).value) else None;
      var payload := HtmlPayload(keywords, region, safesearch, timelimit, vqd);
      Collected(TextCapacity, HtmlInputs(env, payload, TextOffsets(maxResults)), order,
                GenericWalk(HtmlKey(), HtmlBuild(env.unescape)), start, end)
  }

  /** The html search as written: it ends with lo.Slice(records, maxResults,
      0), whose start is never below its end. */
  function TextHtmlSpec(env: Env, keywords: string, region: string, safesearch: string, timelimit: string,
                        maxResults: int, order: seq<nat>): (r: Result<seq<TextResult>, Error>)
    requires IsSchedule(order, |TextOffsets(maxResults)| + 1)
  {
    TextHtmlSliced(env, keywords, region, safesearch, timelimit, maxResults, order, Clamped(maxResults, 500), 0)
  }

  /** The html search as evidently intended: the first maxResults records. */
  function TextHtmlIntendedSpec(env: Env, keywords: string, region: string, safesearch: string, timelimit: string,
                                maxResults: int, order: seq<nat>): (r: Result<seq<TextResult>, Error>)
    requires IsSchedule(order, |TextOffsets(maxResults)| + 1)
    ensures r.Success? ==> |r.value| <= 500 && (maxResults <= 0 ==> r.value == []) && (maxResults > 0 ==> |r.value| <= maxResults)
  {
    TextHtmlSliced(env, keywords, region, safesearch, timelimit, maxResults, order, 0, Clamped(maxResults, 500))
  }

  method TextHtmlWith(env: Env, keywords: string, region: string, safesearch: string, timelimit: string,
                      maxResults: int, order: seq<nat>, asWritten: bool) returns (r: Result<seq<TextResult>, Error>)
    requires IsSchedule(order, |TextOffsets(maxResults)| + 1)
    ensures asWritten ==> r == TextHtmlSpec(env, keywords, region, safesearch, timelimit, maxResults, order)
    ensures !asWritten ==> r == TextHtmlIntendedSpec(env, keywords, region, safesearch, timelimit, maxResults, order)
  {
    if keywords == "" {
      return Failure(MissingKeywords);
    }
    var vqd := None;
    if maxResults > 20 {
      var token := GetVqd(env, keywords);
      if token.Failure? {
        return Failure(token.error);
      }
      vqd := Some(token.value);
    }
    var payload := HtmlPayload(keywords, region, safesearch, timelimit, vqd);
    var m, offsets := PageOffsets(maxResults, 500, 23, 50);
    var inputs := HtmlInputs(env, payload, offsets);
    if asWritten {
      r := Collect(TextCapacity, inputs, order, HtmlKey(), HtmlBuild(env.unescape), m, 0);
    } else {
      r := Collect(TextCapacity, inputs, order, HtmlKey(), HtmlBuild(env.unescape), 0, m);
    }
  }

  /** textHTML as written. */
  method TextHtml(env: Env, keywords: string, region: string, safesearch: string, timelimit: string,
                  maxResults: int, order: seq<nat>) returns (r: Result<seq<TextResult>, Error>)
    requires IsSchedule(order, |TextOffsets(maxResults)| + 1)
    ensures r == TextHtmlSpec(env, keywords, region, safesearch, timelimit, maxResults, order)
  {
    r := TextHtmlWith(env, keywords, region, safesearch, timelimit, maxResults, order, true);
  }

  /** textHTML with the slice bounds in the evident order. */
  method TextHtmlIntended(env: Env, keywords: string, region: string, safesearch: string, timelimit: string,
                          maxResults: int, order: seq<nat>) returns (r: Result<seq<TextResult>, Error>)
    requires IsSchedule(order, |TextOffsets(maxResults)| + 1)
    ensures r == TextHtmlIntendedSpec(env, keywords, region, safesearch, timelimit, maxResults, order)
  {
    r := TextHtmlWith(env, keywords, region, safesearch, timelimit, maxResults, order, false);
  }

  /** As written, the html search never returns a record. */
  lemma TextHtmlAlwaysEmpty(env: Env, keywords: string, region: string, safesearch: string, timelimit: string,
                            maxResults: int, order: seq<nat>)
    requires IsSchedule(order, |TextOffsets(maxResults)| + 1)
    ensures var r := TextHtmlSpec(env, keywords, region, safesearch, timelimit, maxResults, order);
      r.Success? ==> r.value == []
  {
  }

  /** The slice as written against the slice as intended, on one record and
      maxResults = 1: the first drops the record, the second keeps it. */
  lemma SliceBoundsSwapped<R>(x: R)
    ensures LoSlice([x], Clamped(1, 500), 0) == []
    ensures LoSlice([x], 0, Clamped(1, 500)) == [x]
  {
  }

  /** A calm html search, with the slice corrected, returns the first
      maxResults records of page 0, page 1, ... in that order. Above 20
      results the token is fetched and sent with every page. */
  lemma TextHtmlIntendedInPageOrder(env: Env, keywords: string, region: string, safesearch: string, timelimit: string,
                                    maxResults: int, order: seq<nat>, vqd: string)
    requires IsSchedule(order, |TextOffsets(maxResults)| + 1)
    requires keywords != "" && (maxResults > 20 ==> VqdOf(env, keywords) == Success(vqd))
    requires Calm(HtmlInputs(env, HtmlPayload(keywords, region, safesearch, timelimit, if maxResults > 20 then Some(vqd) else None),
                             TextOffsets(maxResults)), HtmlKey(), HtmlBuild(env.unescape))
    ensures var inputs := HtmlInputs(env, HtmlPayload(keywords, region, safesearch, timelimit, if maxResults > 20 then Some(vqd) else None),
                                     TextOffsets(maxResults));
      var st := Run(order, inputs, Initial(TextCapacity), GenericWalk(HtmlKey(), HtmlBuild(env.unescape)));
      TextHtmlIntendedSpec(env, keywords, region, safesearch, timelimit, maxResults, order)
        == Success(LoSlice(Flatten(st.bands, |inputs|), 0, Clamped(maxResults, 500)))
  {
    var inputs := HtmlInputs(env, HtmlPayload(keywords, region, safesearch, timelimit, if maxResults > 20 then Some(vqd) else None),
                             TextOffsets(maxResults));
    TextPagesFit(maxResults);
    CollectedInPageOrder(TextCapacity, inputs, order, HtmlKey(), HtmlBuild(env.unescape), 0, Clamped(maxResults, 500));
  }

  // ---------------------------------------------------------------------
  // text, lite backend

  /** textLite with the final slice given: no token, no safesearch. */
  function TextLiteSliced(env: Env, keywords: string, region: string, timelimit: string,
                          maxResults: int, order: seq<nat>, start: int, end: int): (r: Result<seq<TextResult>, Error>)
    requires IsSchedule(order, |TextOffsets(maxResults)| + 1)
    ensures keywords == "" <==> r == Failure(MissingKeywords)
    ensures r.Failure? ==> r.error in {MissingKeywords, Panic}
  {
    if keywords == "" then Failure(MissingKeywords)
    else Collected(TextCapacity, LiteInputs(env, LitePayload(keywords, region, timelimit), TextOffsets(maxResults)), order,
                   LiteWalker(env.unescape), start, end)
  }

  /** The lite search as written: lo.Slice(records, maxResults, 0). */
  function TextLiteSpec(env: Env, keywords: string, region: string, timelimit: string,
                        maxResults: int, order: seq<nat>): (r: Result<seq<TextResult>, Error>)
    requires IsSchedule(order, |TextOffsets(maxResults)| + 1)
  {
    TextLiteSliced(env, keywords, region, timelimit, maxResults, order, Clamped(maxResults, 500), 0)
  }

  /** The lite search as evidently intended. */
  function TextLiteIntendedSpec(env: Env, keywords: string, region: string, timelimit: string,
                                maxResults: int, order: seq<nat>): (r: Result<seq<TextResult>, Error>)
    requires IsSchedule(order, |TextOffsets(maxResults)| + 1)
    ensures r.Success? ==> |r.value| <= 500 && (maxResults <= 0 ==> r.value == []) && (maxResults > 0 ==> |r.value| <= maxResults)
  {
    TextLiteSliced(env, keywords, region, timelimit, maxResults, order, 0, Clamped(maxResults, 500))
  }

  method TextLiteWith(env: Env, keywords: string, region: string, timelimit: string,
                      maxResults: int, order: seq<nat>, asWritten: bool) returns (r: Result<seq<TextResult>, Error>)
    requires IsSchedule(order, |TextOffsets(maxResults)| + 1)
    ensures asWritten ==> r == TextLiteSpec(env, keywords, region, timelimit, maxResults, order)
    ensures !asWritten ==> r == TextLiteIntendedSpec(env, keywords, region, timelimit, maxResults, order)
  {
    if keywords == "" {
      return Failure(MissingKeywords);
    }
    var payload := LitePayload(keywords, region, timelimit);
    var m, offsets := PageOffsets(maxResults, 500, 23, 50);
    var inputs := LiteInputs(env, payload, offsets);
    if asWritten {
      r := CollectLite(inputs, order, env.unescape, m, 0);
    } else {
      r := CollectLite(inputs, order, env.unescape, 0, m);
    }
  }

  /** textLite as written. */
  method TextLite(env: Env, keywords: string, region: string, timelimit: string,
                  maxResults: int, order: seq<nat>) returns (r: Result<seq<TextResult>, Error>)
    requires IsSchedule(order, |TextOffsets(maxResults)| + 1)
    ensures r == TextLiteSpec(env, keywords, region, timelimit, maxResults, order)
  {
    r := TextLiteWith(env, keywords, region, timelimit, maxResults, order, true);
  }

  /** textLite with the slice bounds in the evident order. */
  method TextLiteIntended(env: Env, keywords: string, region: string, timelimit: string,
                          maxResults: int, order: seq<nat>) returns (r: Result<seq<TextResult>, Error>)
    requires IsSchedule(order, |TextOffsets(maxResults)| + 1)
    ensures r == TextLiteIntendedSpec(env, keywords, region, timelimit, maxResults, order)
  {
    r := TextLiteWith(env, keywords, region, timelimit, maxResults, order, false);
  }

  /** As written, the lite search never returns a record. */
  lemma TextLiteAlwaysEmpty(env: Env, keywords: string, region: string, timelimit: string,
                            maxResults: int, order: seq<nat>)
    requires IsSchedule(order, |TextOffsets(maxResults)| + 1)
    ensures var r := TextLiteSpec(env, keywords, region, timelimit, maxResults, order);
      r.Success? ==> r.value == []
  {
  }

  /** A lite search without panics, with the slice corrected, returns the
      first maxResults records of page 0, page 1, ... in that order. */
  lemma TextLiteIntendedInPageOrder(env: Env, keywords: string, region: string, timelimit: string,
                                    maxResults: int, order: seq<nat>)
    requires IsSchedule(order, |TextOffsets(maxResults)| + 1) && keywords != ""
    requires var inputs := LiteInputs(env, LitePayload(keywords, region, timelimit), TextOffsets(maxResults));
      forall p :: 0 <= p < |inputs| ==> !inputs[p].Panicked?
    ensures var inputs := LiteInputs(env, LitePayload(keywords, region, timelimit), TextOffsets(maxResults));
      var st := Run(order, inputs, Initial(TextCapacity), LiteWalker(env.unescape));
      TextLiteIntendedSpec(env, keywords, region, timelimit, maxResults, order)
        == Success(LoSlice(Flatten(st.bands, |inputs|), 0, Clamped(maxResults, 500)))
  {
    var inputs := LiteInputs(env, LitePayload(keywords, region, timelimit), TextOffsets(maxResults));
    TextPagesFit(maxResults);
    LiteInPageOrder(inputs, order, env.unescape, 0, Clamped(maxResults, 500));
  }

  /** Pages marked "No more results." add nothing. */
  lemma LiteMarkedPageEmpty(env: Env, payload: map<string, string>, s: int)
    requires var body := env.fetch(PageRequest("POST", LiteUrl, payload, s));
      body.Some? && Contains(body.value, "No more results.")
    ensures LitePage(env, payload, s) == NoRows
  {
  }

  // ---------------------------------------------------------------------
  // Text: the backend dispatch

  /** Text as written: region and safesearch get their defaults, an empty
      backend is "api"; html and lite run textHTML and textLite as written,
      so they never return a record. */
  function TextSpec(env: Env, keywords: string, region: string, safesearch: string, timelimit: string,
                    backend: string, maxResults: int, order: seq<nat>): (r: Result<seq<TextResult>, Error>)
    requires IsSchedule(order, |TextOffsets(maxResults)| + 1)
    ensures Default(backend, "api") !in {"api", "html", "lite"} <==> r == Failure(InvalidBackend)
    ensures Default(backend, "api") in {"api", "html", "lite"} ==> (keywords == "" <==> r == Failure(MissingKeywords))
    ensures r.Success? ==> |r.value| <= 500 && (maxResults <= 0 ==> r.value == []) && (maxResults > 0 ==> |r.value| <= maxResults)
    ensures r.Success? && Default(backend, "api") in {"html", "lite"} ==> r.value == []
  {
    var region' := Default(region, "wt-wt");
    var safesearch' := Default(safesearch, "moderate");
    var b := Default(backend, "api");
    if b == "api" then TextApiSpec(env, keywords, region', safesearch', timelimit, maxResults, order)
    else if b == "html" then TextHtmlSpec(env, keywords, region', safesearch', timelimit, maxResults, order)
    else if b == "lite" then TextLiteSpec(env, keywords, region', timelimit, maxResults, order)
    else Failure(InvalidBackend)
  }

  /** Text with the html and lite slices corrected. */
  function TextIntendedSpec(env: Env, keywords: string, region: string, safesearch: string, timelimit: string,
                            backend: string, maxResults: int, order: seq<nat>): (r: Result<seq<TextResult>, Error>)
    requires IsSchedule(order, |TextOffsets(maxResults)| + 1)
    ensures Default(backend, "api") !in {"api", "html", "lite"} <==> r == Failure(InvalidBackend)
    ensures Default(backend, "api") in {"api", "html", "lite"} ==> (keywords == "" <==> r == Failure(MissingKeywords))
    ensures r.Success? ==> |r.value| <= 500 && (maxResults <= 0 ==> r.value == []) && (maxResults > 0 ==> |r.value| <= maxResults)
    ensures Default(backend, "api") == "api" ==> r == TextSpec(env, keywords, region, safesearch, timelimit, backend, maxResults, order)
  {
    var region' := Default(region, "wt-wt");
    var safesearch' := Default(safesearch, "moderate");
    var b := Default(backend, "api");
    if b == "api" then TextApiSpec(env, keywords, region', safesearch', timelimit, maxResults, order)
    else if b == "html" then TextHtmlIntendedSpec(env, keywords, region', safesearch', timelimit, maxResults, order)
    else if b == "lite" then TextLiteIntendedSpec(env, keywords, region', timelimit, maxResults, order)
    else Failure(InvalidBackend)
  }

  method TextWith(env: Env, keywords: string, region: string, safesearch: string, timelimit: string,
                  backend: string, maxResults: int, order: seq<nat>, asWritten: bool) returns (r: Result<seq<TextResult>, Error>)
    requires IsSchedule(order, |TextOffsets(maxResults)| + 1)
    ensures asWritten ==> r == TextSpec(env, keywords, region, safesearch, timelimit, backend, maxResults, order)
    ensures !asWritten ==> r == TextIntendedSpec(env, keywords, region, safesearch, timelimit, backend, maxResults, order)
  {
    var region' := Default(region, "wt-wt");
    var safesearch' := Default(safesearch, "moderate");
    var b := Default(backend, "api");
    if b == "api" {
      r := TextApi(env, keywords, region', safesearch', timelimit, maxResults, order);
    } else if b == "html" {
      r := TextHtmlWith(env, keywords, region', safesearch', timelimit, maxResults, order, asWritten);
    } else if b == "lite" {
      r := TextLiteWith(env, keywords, region', timelimit, maxResults, order, asWritten);
    } else {
      r := Failure(InvalidBackend);
    }
  }

  /** Text as written. */
  method Text(env: Env, keywords: string, region: string, safesearch: string, timelimit: string,
              backend: string, maxResults: int, order: seq<nat>) returns (r: Result<seq<TextResult>, Error>)
    requires IsSchedule(order, |TextOffsets(maxResults)| + 1)
    ensures r == TextSpec(env, keywords, region, safesearch, timelimit, backend, maxResults, order)
  {
    r := TextWith(env, keywords, region, safesearch, timelimit, backend, maxResults, order, true);
  }

  /** Text with the html and lite slices corrected. */
  method TextIntended(env: Env, keywords: string, region: string, safesearch: string, timelimit: string,
                      backend: string, maxResults: int, order: seq<nat>) returns (r: Result<seq<TextResult>, Error>)
    requires IsSchedule(order, |TextOffsets(maxResults)| + 1)
    ensures r == TextIntendedSpec(env, keywords, region, safesearch, timelimit, backend, maxResults, order)
  {
    r := TextWith(env, keywords, region, safesearch, timelimit, backend, maxResults, order, false);
  }

  // ---------------------------------------------------------------------
  // Images

  /** The pages of an image search once the token is known. */
  function ImagesInputs(env: Env, keywords: string, region: string, safesearch: string, timelimit: string,
                        size: string, color: string, typeImage: string, layout: string, license: string,
                        vqd: string, maxResults: int): seq<PageRows<Json>> {
    var f := FilterString(ImagesParts(timelimit, size, color, typeImage, layout, license));
    var payload := ImagesPayload(keywords, Default(region, "wt-wt"), Default(safesearch, "moderate"), vqd, f);
    JsonInputs(env, ImagesUrl, payload, ImagesOffsets(maxResults))
  }

  /** Images: defaults, token, filter string, up to 5 pages keyed on the
      `image` field. */
  function ImagesSpec(env: Env, keywords: string, region: string, safesearch: string, timelimit: string,
                      size: string, color: string, typeImage: string, layout: string, license: string,
                      maxResults: int, order: seq<nat>): (r: Result<seq<ImageResult>, Error>)
    requires IsSchedule(order, |ImagesOffsets(maxResults)| + 1)
    ensures keywords == "" <==> r == Failure(MissingKeywords)
    ensures r.Failure? ==> r.error in {MissingKeywords, TransportError, TokenNotFound(keywords), Panic}
    ensures r.Success? ==> |r.value| <= 500 && (maxResults <= 0 ==> r.value == []) && (maxResults > 0 ==> |r.value| <= maxResults)
  {
    if keywords == "" then Failure(MissingKeywords)
    else match VqdOf(env, keywords)
      case Failure(e) => Failure(e)
      case Success(vqd) =>
        Collected(ImagesCapacity, ImagesInputs(env, keywords, region, safesearch, timelimit, size, color, typeImage, layout, license, vqd, maxResults),
                  order, GenericWalk(FieldKey("image"), ImageBuild(env.show)), 0, Clamped(maxResults, 500))
  }

  method Images(env: Env, keywords: string, region: string, safesearch: string, timelimit: string,
                size: string, color: string, typeImage: string, layout: string, license: string,
                maxResults: int, order: seq<nat>) returns (r: Result<seq<ImageResult>, Error>)
    requires IsSchedule(order, |ImagesOffsets(maxResults)| + 1)
    ensures r == ImagesSpec(env, keywords, region, safesearch, timelimit, size, color, typeImage, layout, license, maxResults, order)
  {
    if keywords == "" {
      return Failure(MissingKeywords);
    }
    var region' := Default(region, "wt-wt");
    var safesearch' := Default(safesearch, "moderate");
    var vqd := GetVqd(env, keywords);
    if vqd.Failure? {
      return Failure(vqd.error);
    }
    var f := ImagesFilter(timelimit, size, color, typeImage, layout, license);
    var payload := ImagesPayload(keywords, region', safesearch', vqd.value, f);
    var m, offsets := PageOffsets(maxResults, 500, 100, 100);
    var inputs := JsonInputs(env, ImagesUrl, payload, offsets);
    r := Collect(ImagesCapacity, inputs, order, FieldKey("image"), ImageBuild(env.show), 0, m);
  }

  /** A calm image search returns the first maxResults images of page 0,
      page 1, ... in that order, whatever order the pages ran in. */
  lemma ImagesInPageOrder(env: Env, keywords: string, region: string, safesearch: string, timelimit: string,
                          size: string, color: string, typeImage: string, layout: string, license: string,
                          maxResults: int, order: seq<nat>, vqd: string)
    requires IsSchedule(order, |ImagesOffsets(maxResults)| + 1)
    requires keywords != "" && VqdOf(env, keywords) == Success(vqd)
    requires Calm(ImagesInputs(env, keywords, region, safesearch, timelimit, size, color, typeImage, layout, license, vqd, maxResults),
                  FieldKey("image"), ImageBuild(env.show))
    ensures var inputs := ImagesInputs(env, keywords, region, safesearch, timelimit, size, color, typeImage, layout, license, vqd, maxResults);
      var st := Run(order, inputs, Initial(ImagesCapacity), GenericWalk(FieldKey("image"), ImageBuild(env.show)));
      ImagesSpec(env, keywords, region, safesearch, timelimit, size, color, typeImage, layout, license, maxResults, order)
        == Success(LoSlice(Flatten(st.bands, |inputs|), 0, Clamped(maxResults, 500)))
  {
    var inputs := ImagesInputs(env, keywords, region, safesearch, timelimit, size, color, typeImage, layout, license, vqd, maxResults);
    ImagesPagesFit(maxResults);
    CollectedInPageOrder(ImagesCapacity, inputs, order, FieldKey("image"), ImageBuild(env.show), 0, Clamped(maxResults, 500));
  }

  // ---------------------------------------------------------------------
  // Videos

  /** The pages of a video search once the token is known. */
  function VideosInputs(env: Env, keywords: string, region: string, safesearch: string, timelimit: string,
                        resolution: string, duration: string, license: string, vqd: string, maxResults: int): seq<PageRows<Json>> {
    var f := FilterString(VideosParts(timelimit, resolution, duration, license));
    var payload := VideosPayload(keywords, Default(region, "wt-wt"), Default(safesearch, "moderate"), vqd, f);
    JsonInputs(env, VideosUrl, payload, VideosOffsets(maxResults))
  }

  /** Videos: defaults, token, filter string, up to 7 pages keyed on the
      `content` field; a record is the whole row. */
  function VideosSpec(env: Env, keywords: string, region: string, safesearch: string, timelimit: string,
                      resolution: string, duration: string, license: string,
                      maxResults: int, order: seq<nat>): (r: Result<seq<map<string, Json>>, Error>)
    requires IsSchedule(order, |VideosOffsets(maxResults)| + 1)
    ensures keywords == "" <==> r == Failure(MissingKeywords)
    ensures r.Failure? ==> r.error in {MissingKeywords, TransportError, TokenNotFound(keywords), Panic}
    ensures r.Success? ==> |r.value| <= 400 && (maxResults <= 0 ==> r.value == []) && (maxResults > 0 ==> |r.value| <= maxResults)
  {
    if keywords == "" then Failure(MissingKeywords)
    else match VqdOf(env, keywords)
      case Failure(e) => Failure(e)
      case Success(vqd) =>
        Collected(VideosCapacity, VideosInputs(env, keywords, region, safesearch, timelimit, resolution, duration, license, vqd, maxResults),
                  order, GenericWalk(FieldKey("content"), VideoBuild()), 0, Clamped(maxResults, 400))
  }

  method Videos(env: Env, keywords: string, region: string, safesearch: string, timelimit: string,
                resolution: string, duration: string, license: string,
                maxResults: int, order: seq<nat>) returns (r: Result<seq<map<string, Json>>, Error>)
    requires IsSchedule(order, |VideosOffsets(maxResults)| + 1)
    ensures r == VideosSpec(env, keywords, region, safesearch, timelimit, resolution, duration, license, maxResults, order)
  {
    if keywords == "" {
      return Failure(MissingKeywords);
    }
    var region' := Default(region, "wt-wt");
    var safesearch' := Default(safesearch, "moderate");
    var vqd := GetVqd(env, keywords);
    if vqd.Failure? {
      return Failure(vqd.error);
    }
    var f := VideosFilter(timelimit, resolution, duration, license);
    var payload := VideosPayload(keywords, region', safesearch', vqd.value, f);
    var m, offsets := PageOffsets(maxResults, 400, 59, 59);
    var inputs := JsonInputs(env, VideosUrl, payload, offsets);
    r := Collect(VideosCapacity, inputs, order, FieldKey("content"), VideoBuild(), 0, m);
  }

  /** A calm video search returns the first maxResults rows of page 0,
      page 1, ... in that order, whatever order the pages ran in. */
  lemma VideosInPageOrder(env: Env, keywords: string, region: string, safesearch: string, timelimit: string,
                          resolution: string, duration: string, license: string,
                          maxResults: int, order: seq<nat>, vqd: string)
    requires IsSchedule(order, |VideosOffsets(maxResults)| + 1)
    requires keywords != "" && VqdOf(env, keywords) == Success(vqd)
    requires Calm(VideosInputs(env, keywords, region, safesearch, timelimit, resolution, duration, license, vqd, maxResults),
                  FieldKey("content"), VideoBuild())
    ensures var inputs := VideosInputs(env, keywords, region, safesearch, timelimit, resolution, duration, license, vqd, maxResults);
      var st := Run(order, inputs, Initial(VideosCapacity), GenericWalk(FieldKey("content"), VideoBuild()));
      VideosSpec(env, keywords, region, safesearch, timelimit, resolution, duration, license, maxResults, order)
        == Success(LoSlice(Flatten(st.bands, |inputs|), 0, Clamped(maxResults, 400)))
  {
    var inputs := VideosInputs(env, keywords, region, safesearch, timelimit, resolution, duration, license, vqd, maxResults);
    VideosPagesFit(maxResults);
    CollectedInPageOrder(VideosCapacity, inputs, order, FieldKey("content"), VideoBuild(), 0, Clamped(maxResults, 400));
  }

  // ---------------------------------------------------------------------
  // News

  /** The pages of a news search once the token is known. */
  function NewsInputs(env: Env, keywords: string, region: string, safesearch: string, timelimit: string,
                      vqd: string, maxResults: int): seq<PageRows<Json>> {
    var payload := NewsPayload(keywords, Default(region, "wt-wt"), Default(safesearch, "moderate"), timelimit, vqd);
    JsonInputs(env, NewsUrl, payload, VideosOffsets(maxResults))
  }

  /** News: defaults, token, up to 7 pages keyed on the `url` field. */
  function NewsSpec(env: Env, keywords: string, region: string, safesearch: string, timelimit: string,
                    maxResults: int, order: seq<nat>): (r: Result<seq<NewsResult>, Error>)
    requires IsSchedule(order, |VideosOffsets(maxResults)| + 1)
    ensures keywords == "" <==> r == Failure(MissingKeywords)
    ensures r.Failure? ==> r.error in {MissingKeywords, TransportError, TokenNotFound(keywords), Panic}
    ensures r.Success? ==> |r.value| <= 400 && (maxResults <= 0 ==> r.value == []) && (maxResults > 0 ==> |r.value| <= maxResults)
  {
    if keywords == "" then Failure(MissingKeywords)
    else match VqdOf(env, keywords)
      case Failure(e) => Failure(e)
      case Success(vqd) =>
        Collected(VideosCapacity, NewsInputs(env, keywords, region, safesearch, timelimit, vqd, maxResults), order,
                  GenericWalk(FieldKey("url"), NewsBuild(env.unescape, env.date)), 0, Clamped(maxResults, 400))
  }

  method News(env: Env, keywords: string, region: string, safesearch: string, timelimit: string,
              maxResults: int, order: seq<nat>) returns (r: Result<seq<NewsResult>, Error>)
    requires IsSchedule(order, |VideosOffsets(maxResults)| + 1)
    ensures r == NewsSpec(env, keywords, region, safesearch, timelimit, maxResults, order)
  {
    if keywords == "" {
      return Failure(MissingKeywords);
    }
    var region' := Default(region, "wt-wt");
    var safesearch' := Default(safesearch, "moderate");
    var vqd := GetVqd(env, keywords);
    if vqd.Failure? {
      return Failure(vqd.error);
    }
    var payload := NewsPayload(keywords, region', safesearch', timelimit, vqd.value);
    var m, offsets := PageOffsets(maxResults, 400, 59, 59);
    var inputs := JsonInputs(env, NewsUrl, payload, offsets);
    r := Collect(VideosCapacity, inputs, order, FieldKey("url"), NewsBuild(env.unescape, env.date), 0, m);
  }

  /** A calm news search returns the first maxResults articles of page 0,
      page 1, ... in that order, whatever order the pages ran in. */
  lemma NewsInPageOrder(env: Env, keywords: string, region: string, safesearch: string, timelimit: string,
                        maxResults: int, order: seq<nat>, vqd: string)
    requires IsSchedule(order, |VideosOffsets(maxResults)| + 1)
    requires keywords != "" && VqdOf(env, keywords) == Success(vqd)
    requires Calm(NewsInputs(env, keywords, region, safesearch, timelimit, vqd, maxResults),
                  FieldKey("url"), NewsBuild(env.unescape, env.date))
    ensures var inputs := NewsInputs(env, keywords, region, safesearch, timelimit, vqd, maxResults);
      var st := Run(order, inputs, Initial(VideosCapacity), GenericWalk(FieldKey("url"), NewsBuild(env.unescape, env.date)));
      NewsSpec(env, keywords, region, safesearch, timelimit, maxResults, order)
        == Success(LoSlice(Flatten(st.bands, |inputs|), 0, Clamped(maxResults, 400)))
  {
    var inputs := NewsInputs(env, keywords, region, safesearch, timelimit, vqd, maxResults);
    VideosPagesFit(maxResults);
    CollectedInPageOrder(VideosCapacity, inputs, order, FieldKey("url"), NewsBuild(env.unescape, env.date), 0, Clamped(maxResults, 400));
  }
}
