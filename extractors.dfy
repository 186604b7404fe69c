/** The per-row logic of the page closures in async_ddgs.go: which key a row
    is deduplicated on, which rows are rejected, and which record an accepted
    row becomes. A page's rows are walked in order against the shared cache;
    `Walk` is the specification of that walk for every backend except the
    lite one, whose closure only looks at the first three table rows
    (`LiteWalk`). */
module Extractors {
  import opened Wrappers
  import opened Strings
  import opened Utils

  // ---------------------------------------------------------------------
  // Decoded inputs

  /** A value decoded by encoding/json into `any`. */
  datatype Json =
    | JNull
    | JBool(b: bool)
    | JNumber(literal: string)
    | JString(str: string)
    | JArray(items: seq<Json>)
    | JObject(fields: map<string, Json>)

  /** `m[k].(string)` with the comma-ok form: None when the key is missing or
      does not hold a string. */
  function StringField(m: map<string, Json>, k: string): Option<string> {
    if k in m && m[k].JString? then Some(m[k].str) else None
  }

  /** `m[k].(string)` used directly: the string, "" when there is none. */
  function StringOr(m: map<string, Json>, k: string): string {
    match StringField(m, k)
    case Some(s) => s
    case None => ""
  }

  /** `m[k]` of a Go map: the value, or None for a missing key. */
  function Lookup(m: map<string, Json>, k: string): Option<Json> {
    if k in m then Some(m[k]) else None
  }

  /** One `//div[h2]` block of the html backend: the `./a/@href` attribute if
      there is one, the text of `./h2/a` and the texts under `./a`. */
  datatype HtmlBlock = HtmlBlock(href: Option<string>, title: string, texts: seq<string>)

  /** One row of the last table of the lite backend: the first `.//a//@href`
      if there is one, the text of the first link, and the texts of the
      `result-snippet` cells. */
  datatype LiteRow = LiteRow(href: Option<string>, linkText: string, snippets: seq<string>)

  // ---------------------------------------------------------------------
  // Records

  /** A text result: title, href and body. */
  datatype TextResult = TextResult(title: string, href: string, body: string)

  /** An image result. `height` and `width` are the `%v` rendering of the
      decoded values. */
  datatype ImageResult = ImageResult(
    title: string, image: string, thumbnail: string, url: string,
    height: string, width: string, source: string)

  /** A news result; `date` is the RFC 3339 rendering of the decoded
      timestamp. */
  datatype NewsResult = NewsResult(
    date: string, title: string, body: string, url: string, image: string, source: string)

  // ---------------------------------------------------------------------
  // Walking a page

  /** What a page contributed: its records in emission order, the key each
      record was accepted under, and the cache afterwards. */
  datatype Page<R> = Page(records: seq<R>, keys: seq<string>, cache: set<string>)

  /** The loop of a page closure: a row whose key is missing, empty or
      excluded (`key` gives None) or already cached is skipped; otherwise its
      key is cached, and `build` decides whether a record is emitted. */
  function Walk<Row, R>(rows: seq<Row>, cache: set<string>,
                        key: Row -> Option<string>, build: (Row, string) -> Option<R>): (pg: Page<R>)
    ensures |pg.records| == |pg.keys| <= |rows|
    ensures cache <= pg.cache
    decreases |rows|
  {
    if rows == [] then Page([], [], cache)
    else
      var pg := Walk(rows[..|rows| - 1], cache, key, build);
      var row := rows[|rows| - 1];
      match key(row)
      case None => pg
      case Some(k) =>
        if k in pg.cache then pg
        else match build(row, k)
          case None => Page(pg.records, pg.keys, pg.cache + {k})
          case Some(rec) => Page(pg.records + [rec], pg.keys + [k], pg.cache + {k})
  }

  /** The keys a page emits are pairwise distinct, none of them was cached
      before the page, and all of them are cached after it. */
  predicate FreshKeys<R>(cache: set<string>, pg: Page<R>) {
    && (forall i, j :: 0 <= i < j < |pg.keys| ==> pg.keys[i] != pg.keys[j])
    && (forall i :: 0 <= i < |pg.keys| ==> pg.keys[i] !in cache && pg.keys[i] in pg.cache)
  }

  /** Deduplication within and across pages: a key that is cached is never
      emitted again. */
  lemma {:induction false} WalkFresh<Row, R>(rows: seq<Row>, cache: set<string>,
                                             key: Row -> Option<string>, build: (Row, string) -> Option<R>)
    ensures FreshKeys(cache, Walk(rows, cache, key, build))
    decreases |rows|
  {
    if rows != [] {
      WalkFresh(rows[..|rows| - 1], cache, key, build);
    }
  }

  /** Every row that passes the key test ends up cached, whether or not a
      record was emitted for it, and nothing else is cached. */
  lemma {:induction false} WalkCache<Row, R>(rows: seq<Row>, cache: set<string>,
                                             key: Row -> Option<string>, build: (Row, string) -> Option<R>)
    ensures forall i :: 0 <= i < |rows| && key(rows[i]).Some? ==> key(rows[i]).value in Walk(rows, cache, key, build).cache
    ensures forall k :: k in Walk(rows, cache, key, build).cache ==>
      k in cache || exists i :: 0 <= i < |rows| && key(rows[i]) == Some(k)
    decreases |rows|
  {
    if rows != [] {
      var init := rows[..|rows| - 1];
      WalkCache(init, cache, key, build);
      forall i | 0 <= i < |init| ensures init[i] == rows[i] { }
    }
  }

  /** A page walked after other pages accepts no more records than the same
      page walked on its own: keys already cached are only skipped. */
  lemma {:induction false} WalkFromEmpty<Row, R>(rows: seq<Row>, cache: set<string>,
                                                 key: Row -> Option<string>, build: (Row, string) -> Option<R>)
    ensures Walk(rows, cache, key, build).cache == cache + Walk(rows, {}, key, build).cache
    ensures |Walk(rows, cache, key, build).records| <= |Walk(rows, {}, key, build).records|
    decreases |rows|
  {
    if rows != [] {
      WalkFromEmpty(rows[..|rows| - 1], cache, key, build);
    }
  }

  /** Every record is what `build` makes of the row its key came from. */
  lemma {:induction false} WalkBuilt<Row, R>(rows: seq<Row>, cache: set<string>,
                                             key: Row -> Option<string>, build: (Row, string) -> Option<R>)
    ensures AllBuilt(rows, key, build, Walk(rows, cache, key, build))
    decreases |rows|
  {
    if rows != [] {
      var init := rows[..|rows| - 1];
      var pg0 := Walk(init, cache, key, build);
      var pg := Walk(rows, cache, key, build);
      WalkBuilt(init, cache, key, build);
      forall j | 0 <= j < |pg.records| ensures BuiltFrom(rows, key, build, pg.keys[j], pg.records[j]) {
        if j < |pg0.records| {
          assert pg.keys[j] == pg0.keys[j] && pg.records[j] == pg0.records[j];
          assert BuiltFrom(init, key, build, pg0.keys[j], pg0.records[j]);
          var i :| 0 <= i < |init| && key(init[i]) == Some(pg0.keys[j]) && build(init[i], pg0.keys[j]) == Some(pg0.records[j]);
          assert init[i] == rows[i];
        } else {
          assert key(rows[|rows| - 1]) == Some(pg.keys[j]);
        }
      }
    }
  }

  /** Some row has key `k` and is built into `rec`. */
  ghost predicate BuiltFrom<Row, R>(rows: seq<Row>, key: Row -> Option<string>, build: (Row, string) -> Option<R>, k: string, rec: R) {
    exists i :: 0 <= i < |rows| && key(rows[i]) == Some(k) && build(rows[i], k) == Some(rec)
  }

  /** Every record of `pg` is built from some row under its key. */
  ghost predicate AllBuilt<Row, R>(rows: seq<Row>, key: Row -> Option<string>, build: (Row, string) -> Option<R>, pg: Page<R>) {
    |pg.records| == |pg.keys|
    && forall j :: 0 <= j < |pg.records| ==> BuiltFrom(rows, key, build, pg.keys[j], pg.records[j])
  }

  /** A walk over a prefix of the rows is a prefix of the walk over all of
      them: records are written in row order, never retracted. */
  lemma {:induction false} WalkPrefix<Row, R>(rows: seq<Row>, n: nat, cache: set<string>,
                                              key: Row -> Option<string>, build: (Row, string) -> Option<R>)
    requires n <= |rows|
    ensures Walk(rows[..n], cache, key, build).records <= Walk(rows, cache, key, build).records
    decreases |rows| - n
  {
    if n < |rows| {
      WalkPrefix(rows, n + 1, cache, key, build);
      assert rows[..n + 1][..n] == rows[..n];
    } else {
      assert rows[..n] == rows;
    }
  }

  // ---------------------------------------------------------------------
  // text, api backend

  const GooglePrefix: string := "http://www.google.com/search?q="
  const AdPrefix: string := "https://duckduckgo.com/y.js?ad_domain"

  /** The api row key: the string `u`, unless it is empty or the Google
      search URL for the keywords. */
  function ApiKeyOf(keywords: string, row: map<string, Json>): Option<string> {
    match StringField(row, "u")
    case None => None
    case Some(u) => if u != "" && u != GooglePrefix + keywords then Some(u) else None
  }

  function ApiKey(keywords: string): map<string, Json> -> Option<string> {
    row => ApiKeyOf(keywords, row)
  }

  /** An api record is emitted only when the normalised `a` is not empty. */
  function ApiBuildOf(unescape: string -> string, row: map<string, Json>, href: string): Option<TextResult> {
    var body := Normalize(StringOr(row, "a"), unescape);
    if body != "" then Some(TextResult(Normalize(StringOr(row, "t"), unescape), NormalizeURL(href), body))
    else None
  }

  function ApiBuild(unescape: string -> string): (map<string, Json>, string) -> Option<TextResult> {
    (row, href) => ApiBuildOf(unescape, row, href)
  }

  /** No api record has an empty body, and none comes from the Google search
      URL for the keywords or from an empty `u`. */
  lemma ApiRecords(rows: seq<map<string, Json>>, cache: set<string>, keywords: string, unescape: string -> string)
    ensures var pg := Walk(rows, cache, ApiKey(keywords), ApiBuild(unescape));
      forall j :: 0 <= j < |pg.records| ==>
        pg.records[j].body != "" && pg.keys[j] != "" && pg.keys[j] != GooglePrefix + keywords
  {
    WalkBuilt(rows, cache, ApiKey(keywords), ApiBuild(unescape));
  }

  /** A row whose key is accepted but which builds no record still caches
      that key: if no earlier row carries the key, the page never emits it,
      whatever the later rows with the same key hold. */
  lemma {:induction false} WalkSilentKey<Row, R>(rows: seq<Row>, cache: set<string>,
                                                 key: Row -> Option<string>, build: (Row, string) -> Option<R>, i: nat, k: string)
    requires i < |rows| && key(rows[i]) == Some(k) && build(rows[i], k).None?
    requires forall j :: 0 <= j < i ==> key(rows[j]) != Some(k)
    ensures k in Walk(rows, cache, key, build).cache && k !in Walk(rows, cache, key, build).keys
    decreases |rows|
  {
    var init := rows[..|rows| - 1];
    var pg0 := Walk(init, cache, key, build);
    WalkFresh(rows, cache, key, build);
    if i < |rows| - 1 {
      forall j | 0 <= j <= i ensures init[j] == rows[j] { }
      WalkSilentKey(init, cache, key, build, i, k);
    } else if k !in cache {
      WalkCache(init, cache, key, build);
      WalkFresh(init, cache, key, build);
      forall j | 0 <= j < |init| ensures key(init[j]) != Some(k) {
        assert init[j] == rows[j];
      }
      assert k !in pg0.cache;
      assert k !in pg0.keys;
    }
  }

  /** An api row with an admissible `u` and an empty body caches `u` without
      emitting: unless an earlier row carried the same `u`, no record of the
      page is keyed on `u`, even when a later row with that `u` has a body. */
  lemma ApiMarksWithoutEmitting(rows: seq<map<string, Json>>, cache: set<string>, keywords: string,
                                unescape: string -> string, i: nat, u: string)
    requires i < |rows| && StringField(rows[i], "u") == Some(u) && u != "" && u != GooglePrefix + keywords
    requires Normalize(StringOr(rows[i], "a"), unescape) == ""
    requires forall j :: 0 <= j < i ==> StringField(rows[j], "u") != Some(u)
    ensures var pg := Walk(rows, cache, ApiKey(keywords), ApiBuild(unescape));
      u in pg.cache && u !in pg.keys
  {
    forall j | 0 <= j < i ensures ApiKey(keywords)(rows[j]) != Some(u) {
      assert StringField(rows[j], "u") != Some(u);
    }
    WalkSilentKey(rows, cache, ApiKey(keywords), ApiBuild(unescape), i, u);
  }

  // ---------------------------------------------------------------------
  // text, html backend

  /** The html block key: the href, unless it is missing, empty, a Google
      search URL or an ad redirect. */
  function HtmlKeyOf(block: HtmlBlock): Option<string> {
    match block.href
    case None => None
    case Some(h) =>
      if h != "" && !HasPrefix(h, GooglePrefix) && !HasPrefix(h, AdPrefix) then Some(h) else None
  }

  function HtmlKey(): HtmlBlock -> Option<string> {
    block => HtmlKeyOf(block)
  }

  /** Every accepted block is emitted. */
  function HtmlBuildOf(unescape: string -> string, block: HtmlBlock, href: string): Option<TextResult> {
    Some(TextResult(Normalize(block.title, unescape), NormalizeURL(href), Normalize(Concat(block.texts), unescape)))
  }

  function HtmlBuild(unescape: string -> string): (HtmlBlock, string) -> Option<TextResult> {
    (block, href) => HtmlBuildOf(unescape, block, href)
  }

  /** An html page emits one record per block with a fresh, admissible href;
      no record comes from a Google search URL or an ad redirect. */
  lemma HtmlRecords(blocks: seq<HtmlBlock>, cache: set<string>, unescape: string -> string)
    ensures var pg := Walk(blocks, cache, HtmlKey(), HtmlBuild(unescape));
      forall j :: 0 <= j < |pg.keys| ==>
        pg.keys[j] != "" && !HasPrefix(pg.keys[j], GooglePrefix) && !HasPrefix(pg.keys[j], AdPrefix)
  {
    WalkBuilt(blocks, cache, HtmlKey(), HtmlBuild(unescape));
  }

  // ---------------------------------------------------------------------
  // images, videos and news: JSON rows keyed by one string field

  /** The key of a JSON row: the named field, if the row is an object and the
      field is a non-empty string. */
  function FieldKeyOf(field: string, row: Json): Option<string> {
    match row
    case JObject(m) =>
      (match StringField(m, field)
       case Some(s) => if s != "" then Some(s) else None
       case None => None)
    case _ => None
  }

  function FieldKey(field: string): Json -> Option<string> {
    row => FieldKeyOf(field, row)
  }

  /** The fields of an object row (an object always, once the key accepted it). */
  function Fields(row: Json): map<string, Json> {
    if row.JObject? then row.fields else map[]
  }

  /** An image record; `show` renders a value as `%v` does. */
  function ImageBuildOf(show: Option<Json> -> string, row: Json, image: string): Option<ImageResult> {
    var m := Fields(row);
    Some(ImageResult(StringOr(m, "title"), NormalizeURL(image),
      NormalizeURL(StringOr(m, "thumbnail")), NormalizeURL(StringOr(m, "url")),
      show(Lookup(m, "height")), show(Lookup(m, "width")), StringOr(m, "source")))
  }

  function ImageBuild(show: Option<Json> -> string): (Json, string) -> Option<ImageResult> {
    (row, image) => ImageBuildOf(show, row, image)
  }

  /** A video record is the decoded row itself. */
  function VideoBuildOf(row: Json, content: string): Option<map<string, Json>> {
    Some(Fields(row))
  }

  function VideoBuild(): (Json, string) -> Option<map<string, Json>> {
    (row, content) => VideoBuildOf(row, content)
  }

  /** A news record; `date` renders the decoded timestamp, and a missing
      image is the empty string. */
  function NewsBuildOf(unescape: string -> string, date: Option<Json> -> string, row: Json, url: string): Option<NewsResult> {
    var m := Fields(row);
    Some(NewsResult(date(Lookup(m, "date")), StringOr(m, "title"),
      Normalize(StringOr(m, "excerpt"), unescape), NormalizeURL(url),
      NormalizeURL(StringOr(m, "image")), StringOr(m, "source")))
  }

  function NewsBuild(unescape: string -> string, date: Option<Json> -> string): (Json, string) -> Option<NewsResult> {
    (row, url) => NewsBuildOf(unescape, date, row, url)
  }

  /** Every video record is an object row whose `content` is the non-empty
      string it was deduplicated on. */
  lemma VideoRecords(rows: seq<Json>, cache: set<string>)
    ensures var pg := Walk(rows, cache, FieldKey("content"), VideoBuild());
      forall j :: 0 <= j < |pg.records| ==>
        pg.keys[j] != "" && StringField(pg.records[j], "content") == Some(pg.keys[j])
  {
    WalkBuilt(rows, cache, FieldKey("content"), VideoBuild());
  }

  // ---------------------------------------------------------------------
  // text, lite backend

  /** The lite closure's rejection test on the first row's href. */
  predicate LiteRejected(href: string, cache: set<string>) {
    href == "" || href in cache || HasPrefix(href, GooglePrefix) || HasPrefix(href, AdPrefix)
  }

  /** The href row 0 sets, or "" when it has none. */
  function LiteHref(rows: seq<LiteRow>): string {
    if |rows| > 0 && rows[0].href.Some? then rows[0].href.value else ""
  }

  /** Whether row 0 has an href the closure accepts. */
  predicate LiteAccepted(rows: seq<LiteRow>, cache: set<string>) {
    |rows| > 0 && rows[0].href.Some? && !LiteRejected(LiteHref(rows), cache)
  }

  /** The title row 0 sets: its link text, only when its href is accepted. */
  function LiteTitle(rows: seq<LiteRow>, cache: set<string>): string {
    if LiteAccepted(rows, cache) then rows[0].linkText else ""
  }

  /** The body row 1 sets: its snippets joined. */
  function LiteBody(rows: seq<LiteRow>): string {
    if |rows| > 1 then Concat(rows[1].snippets) else ""
  }

  /** The cache after row 0: the accepted href added. */
  function LiteCache(rows: seq<LiteRow>, cache: set<string>): set<string> {
    if LiteAccepted(rows, cache) then cache + {LiteHref(rows)} else cache
  }

  /** The record row 2 emits, from whatever rows 0 and 1 set. */
  function LiteRecord(rows: seq<LiteRow>, cache: set<string>, unescape: string -> string): TextResult {
    TextResult(Normalize(LiteTitle(rows, cache), unescape), NormalizeURL(LiteHref(rows)), Normalize(LiteBody(rows), unescape))
  }

  /** The lite closure: row 0 sets the href and, unless the href is rejected,
      caches it and takes the link text as title; row 1 sets the body; row 2
      emits one record from whatever was set. Later rows are ignored, and a
      rejected href does not stop the record. */
  function LiteWalk(rows: seq<LiteRow>, cache: set<string>, unescape: string -> string): (pg: Page<TextResult>)
    ensures |pg.records| == |pg.keys| == (if |rows| >= 3 then 1 else 0)
    ensures cache <= pg.cache && |pg.cache - cache| <= 1
  {
    assert LiteCache(rows, cache) - cache <= {LiteHref(rows)};
    if |rows| > 2 then Page([LiteRecord(rows, cache, unescape)], [LiteHref(rows)], LiteCache(rows, cache))
    else Page([], [], LiteCache(rows, cache))
  }

  function LiteWalker(unescape: string -> string): (seq<LiteRow>, set<string>) -> Page<TextResult> {
    (rows, cache) => LiteWalk(rows, cache, unescape)
  }

  /** The lite backend does not deduplicate: on a page of three rows or
      more whose first href is rejected (empty, already cached, a Google
      search URL or an ad redirect), the page still yields one record keyed
      by that href, with an empty title, and the cache is left as it was. */
  lemma LiteEmitsCachedHref(rows: seq<LiteRow>, cache: set<string>, unescape: string -> string, h: string)
    requires |rows| >= 3 && rows[0].href == Some(h) && LiteRejected(h, cache)
    ensures var pg := LiteWalk(rows, cache, unescape);
      && pg.keys == [h] && |pg.records| == 1
      && pg.records[0].title == "" && pg.records[0].href == NormalizeURL(h)
      && pg.records[0].body == Normalize(Concat(rows[1].snippets), unescape)
      && pg.cache == cache
  {
    assert !LiteAccepted(rows, cache);
    assert LiteTitle(rows, cache) == "";
  }
}
