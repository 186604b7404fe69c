/** The fan-out shared by every search in async_ddgs.go. Page 0 and one page
    per offset run as tasks that share a `cache` of seen keys and a
    pre-allocated `results` slice; the k-th record page p accepts goes to slot
    p*100 + k. When all tasks are done, the nil slots are filtered out and the
    rest is cut with `lo.Slice`. The tasks run one after another here, in an
    order the caller chooses. */
module Aggregation {
  import opened Wrappers
  import opened Strings
  import opened Utils
  import opened Extractors

  /** What a page task got to walk: decoded rows; nothing (the request, the
      decoding or the parse failed, or the page said there are no results);
      or a panic inside the page task. */
  datatype PageRows<Row> = Rows(rows: seq<Row>) | NoRows | Panicked

  // ---------------------------------------------------------------------
  // Slots

  /** Width of the slot band reserved for each page. */
  const Band: nat := 100

  /** The writes of one page: record k (0-based) at slot page*100 + k + 1. */
  function WriteBand<R>(slots: seq<Option<R>>, page: nat, records: seq<R>): (r: seq<Option<R>>)
    ensures |r| == |slots|
  {
    seq(|slots|, i requires 0 <= i < |slots| =>
      if page * Band < i <= page * Band + |records| then Some(records[i - page * Band - 1]) else slots[i])
  }

  /** Writing one more record extends the band by one slot. */
  lemma WriteBandSnoc<R>(slots: seq<Option<R>>, page: nat, records: seq<R>, rec: R)
    requires page * Band + |records| + 1 < |slots|
    ensures WriteBand(slots, page, records + [rec])
      == WriteBand(slots, page, records)[page * Band + |records| + 1 := Some(rec)]
  {
  }

  /** A page's writes stay inside the slice: its last slot exists. Slot
      page*100 itself is never written. */
  predicate Fits(page: nat, n: nat, capacity: nat) {
    n == 0 || page * Band + n < capacity
  }

  /** `lo.Filter(results, res != nil)`: the records, in slot order. */
  function Filter<R>(slots: seq<Option<R>>): (r: seq<R>)
    ensures |r| <= |slots|
    decreases |slots|
  {
    if slots == [] then []
    else
      var last := slots[|slots| - 1];
      Filter(slots[..|slots| - 1]) + (if last.Some? then [last.value] else [])
  }

  /** Filtering distributes over concatenation. */
  lemma {:induction false} FilterAppend<R>(a: seq<Option<R>>, b: seq<Option<R>>)
    ensures Filter(a + b) == Filter(a) + Filter(b)
    decreases |b|
  {
    if b != [] {
      var b' := b[..|b| - 1];
      assert (a + b)[..|a + b| - 1] == a + b';
      assert (a + b)[|a + b| - 1] == b[|b| - 1];
      FilterAppend(a, b');
    } else {
      assert a + b == a;
    }
  }

  /** A record survives filtering exactly when some slot holds it. */
  lemma {:induction false} FilterMembers<R>(slots: seq<Option<R>>, x: R)
    ensures x in Filter(slots) <==> Some(x) in slots
    decreases |slots|
  {
    if slots != [] {
      var init := slots[..|slots| - 1];
      FilterMembers(init, x);
      assert slots == init + [slots[|slots| - 1]];
    }
  }

  /** `lo.Slice(s, start, end)`: empty when start >= end; otherwise both
      bounds are clamped into [0, len(s)]. */
  function LoSlice<T>(s: seq<T>, start: int, end: int): (r: seq<T>)
    ensures start >= end ==> r == []
    ensures start <= 0 < end ==> r == s[..if end < |s| then end else |s|]
    ensures |r| <= |s| && (end <= 0 ==> r == []) && (end > 0 ==> |r| <= end)
  {
    if start >= end then []
    else
      var lo := if start > |s| then |s| else if start < 0 then 0 else start;
      var hi := if end > |s| then |s| else if end < 0 then 0 else end;
      s[lo..hi]
  }

  // ---------------------------------------------------------------------
  // The specification of a whole run

  /** The state after some pages ran: the slots, the cache, whether a task
      panicked, and what each page that walked rows contributed. */
  datatype RunState<R> = RunState(slots: seq<Option<R>>, cache: set<string>, crashed: bool, bands: map<nat, Page<R>>)

  /** The run-time state before any page: nil slots and an empty cache. */
  function Initial<R>(capacity: nat): (st: RunState<R>)
    ensures |st.slots| == capacity && !st.crashed && st.bands == map[]
  {
    RunState(seq(capacity, _ => None), {}, false, map[])
  }

  /** The walk every backend but the lite one uses. */
  function GenericWalk<Row, R>(key: Row -> Option<string>, build: (Row, string) -> Option<R>): (seq<Row>, set<string>) -> Page<R> {
    (rows, cache) => Walk(rows, cache, key, build)
  }

  /** One page task: a panic ends the run; a page with rows walks them
      against the cache and writes its band, or panics on the first slot past
      the end of the slice. */
  function Step<Row, R>(st: RunState<R>, page: nat, input: PageRows<Row>,
                        walk: (seq<Row>, set<string>) -> Page<R>): (r: RunState<R>)
    ensures |r.slots| == |st.slots|
  {
    if st.crashed then st
    else match input
      case NoRows => st
      case Panicked => st.(crashed := true)
      case Rows(rows) =>
        var pg := walk(rows, st.cache);
        if Fits(page, |pg.records|, |st.slots|) then
          RunState(WriteBand(st.slots, page, pg.records), pg.cache, false, st.bands[page := pg])
        else st.(crashed := true)
  }

  /** The pages run to completion one after another, in `order`. */
  function Run<Row, R>(order: seq<nat>, inputs: seq<PageRows<Row>>, init: RunState<R>,
                       walk: (seq<Row>, set<string>) -> Page<R>): (r: RunState<R>)
    requires forall j :: 0 <= j < |order| ==> order[j] < |inputs|
    ensures |r.slots| == |init.slots|
    decreases |order|
  {
    if order == [] then init
    else
      var page := order[|order| - 1];
      Step(Run(order[..|order| - 1], inputs, init, walk), page, inputs[page], walk)
  }

  /** Once a task panicked the run is over. */
  lemma {:induction false} RunStaysCrashed<Row, R>(order: seq<nat>, n: nat, inputs: seq<PageRows<Row>>,
                                                   init: RunState<R>, walk: (seq<Row>, set<string>) -> Page<R>)
    requires forall j :: 0 <= j < |order| ==> order[j] < |inputs|
    requires n <= |order| && Run(order[..n], inputs, init, walk).crashed
    ensures Run(order, inputs, init, walk).crashed
    decreases |order| - n
  {
    if n < |order| {
      assert order[..n + 1][..n] == order[..n];
      RunStaysCrashed(order, n + 1, inputs, init, walk);
    } else {
      assert order[..n] == order;
    }
  }

  // ---------------------------------------------------------------------
  // Where the records end up

  /** Slot i holds record i%100 - 1 of page i/100, if that page wrote one. */
  function SlotValue<R>(bands: map<nat, Page<R>>, i: nat): Option<R> {
    var page := i / Band;
    var k := i % Band;
    if page in bands && 0 < k <= |bands[page].records| then Some(bands[page].records[k - 1]) else None
  }

  /** The slots after the given pages wrote their bands into nil slots. */
  function Layout<R>(capacity: nat, bands: map<nat, Page<R>>): (r: seq<Option<R>>)
    ensures |r| == capacity
  {
    seq(capacity, i requires 0 <= i < capacity => SlotValue(bands, i))
  }

  /** The records of pages 0 .. n-1, page by page, each in its own order. */
  function Flatten<R>(bands: map<nat, Page<R>>, n: nat): seq<R>
    decreases n
  {
    if n == 0 then []
    else Flatten(bands, n - 1) + (if n - 1 in bands then bands[n - 1].records else [])
  }

  /** Every page wrote at most 99 records, and every page is below `n`. */
  predicate BandsWithin<R>(bands: map<nat, Page<R>>, n: nat) {
    forall p :: p in bands ==> p < n && |bands[p].records| < Band
  }

  /** Slot 100*p + k is slot k of page p's band. */
  lemma SlotOfBand(p: nat, k: nat)
    requires k < Band
    ensures (p * Band + k) / Band == p && (p * Band + k) % Band == k
  {
  }

  /** With no slot nil outside the bands, writing a page's band into the
      layout of the other pages gives the layout with that page added. */
  lemma WriteBandLayout<R>(capacity: nat, bands: map<nat, Page<R>>, page: nat, pg: Page<R>)
    requires page !in bands && |pg.records| < Band
    ensures WriteBand(Layout(capacity, bands), page, pg.records) == Layout(capacity, bands[page := pg])
  {
    var a := WriteBand(Layout(capacity, bands), page, pg.records);
    var b := Layout(capacity, bands[page := pg]);
    forall i | 0 <= i < capacity ensures a[i] == b[i] {
      var q, k := i / Band, i % Band;
      assert i == q * Band + k;
      if q == page {
        SlotOfBand(page, k);
      } else if page * Band < i <= page * Band + |pg.records| {
        assert false;
      }
    }
  }

  /** One page's slot band, filtered, is that page's records. */
  lemma FilterBand<R>(capacity: nat, bands: map<nat, Page<R>>, p: nat)
    requires BandsWithin(bands, capacity) && (p + 1) * Band <= capacity
    ensures Filter(Layout(capacity, bands)[p * Band..(p + 1) * Band])
      == if p in bands then bands[p].records else []
  {
    var recs := if p in bands then bands[p].records else [];
    var block := Layout(capacity, bands)[p * Band..(p + 1) * Band];
    assert |block| == Band;
    forall k | 0 <= k < Band
      ensures block[k] == if 0 < k <= |recs| then Some(recs[k - 1]) else None
    {
      assert block[k] == SlotValue(bands, p * Band + k);
      SlotOfBand(p, k);
    }
    FilterBlock(block, recs, Band);
    assert block[..Band] == block;
    assert recs[..|recs|] == recs;
  }

  /** Filtering a block whose slot 0 is nil, whose next |recs| slots hold
      `recs` and whose other slots are nil gives `recs`. */
  lemma {:induction false} FilterBlock<R>(block: seq<Option<R>>, recs: seq<R>, n: nat)
    requires n <= |block| && |recs| < |block|
    requires forall k :: 0 <= k < |block| ==> block[k] == if 0 < k <= |recs| then Some(recs[k - 1]) else None
    ensures Filter(block[..n]) == recs[..if n == 0 then 0 else if n - 1 < |recs| then n - 1 else |recs|]
    decreases n
  {
    if n > 0 {
      FilterBlock(block, recs, n - 1);
      assert block[..n][..n - 1] == block[..n - 1];
    }
  }

  /** The ordering theorem: however the pages were scheduled, the filtered
      slots list page 0's records, then page 1's, and so on, each page's in
      its own emission order. */
  lemma {:induction false} LayoutFilter<R>(capacity: nat, bands: map<nat, Page<R>>, n: nat)
    requires BandsWithin(bands, n) && n * Band <= capacity
    ensures Filter(Layout(capacity, bands)) == Flatten(bands, n)
  {
    var lay := Layout(capacity, bands);
    LayoutPrefix(capacity, bands, n, n);
    assert lay == lay[..n * Band] + lay[n * Band..];
    FilterAppend(lay[..n * Band], lay[n * Band..]);
    NilTail(lay[n * Band..], |lay| - n * Band);
    forall i | n * Band <= i < capacity ensures lay[i] == None {
      var q, k := i / Band, i % Band;
      assert i == q * Band + k;
    }
  }

  /** The first m bands of the layout filter to the records of pages 0..m-1. */
  lemma {:induction false} LayoutPrefix<R>(capacity: nat, bands: map<nat, Page<R>>, n: nat, m: nat)
    requires BandsWithin(bands, n) && n * Band <= capacity && m <= n
    ensures Filter(Layout(capacity, bands)[..m * Band]) == Flatten(bands, m)
    decreases m
  {
    if m > 0 {
      var lay := Layout(capacity, bands);
      LayoutPrefix(capacity, bands, n, m - 1);
      assert lay[..m * Band] == lay[..(m - 1) * Band] + lay[(m - 1) * Band..m * Band];
      FilterAppend(lay[..(m - 1) * Band], lay[(m - 1) * Band..m * Band]);
      assert BandsWithin(bands, capacity);
      FilterBand(capacity, bands, m - 1);
    }
  }

  /** Slots that are all nil filter to nothing. */
  lemma {:induction false} NilTail<R>(s: seq<Option<R>>, n: nat)
    requires n == |s|
    ensures (forall i :: 0 <= i < |s| ==> s[i] == None) ==> Filter(s) == []
    decreases n
  {
    if n > 0 {
      NilTail(s[..n - 1], n - 1);
    }
  }

  // ---------------------------------------------------------------------
  // Whole runs

  /** Every page index the schedule names has an input. */
  predicate Scheduled<Row>(order: seq<nat>, inputs: seq<PageRows<Row>>) {
    forall j :: 0 <= j < |order| ==> order[j] < |inputs|
  }

  /** No page index is scheduled twice. */
  predicate Distinct(order: seq<nat>) {
    forall i, j :: 0 <= i < j < |order| ==> order[i] != order[j]
  }

  /** Whatever the cache, every page with rows accepts fewer than 100 of
      them. */
  ghost predicate WalksFit<Row, R>(inputs: seq<PageRows<Row>>, walk: (seq<Row>, set<string>) -> Page<R>) {
    forall p, cache :: 0 <= p < |inputs| && inputs[p].Rows? ==> |walk(inputs[p].rows, cache).records| < Band
  }

  /** The layout of no bands is all nil. */
  lemma EmptyLayout<R>(capacity: nat)
    ensures Layout<R>(capacity, map[]) == Initial<R>(capacity).slots
  {
  }

  /** When no task panics, there are at most `|inputs|` pages with
      100*|inputs| <= capacity, and no page accepts 100 records, the run
      does not crash, every slot is where the layout puts it, and the pages
      that walked rows are exactly the scheduled pages with rows. */
  lemma {:induction false} RunLayout<Row, R>(order: seq<nat>, inputs: seq<PageRows<Row>>, capacity: nat,
                                             walk: (seq<Row>, set<string>) -> Page<R>)
    requires Scheduled(order, inputs) && Distinct(order)
    requires |inputs| * Band <= capacity && WalksFit(inputs, walk)
    requires forall p :: 0 <= p < |inputs| ==> !inputs[p].Panicked?
    ensures var st := Run(order, inputs, Initial(capacity), walk);
      && !st.crashed
      && st.slots == Layout(capacity, st.bands)
      && BandsWithin(st.bands, |inputs|)
      && (forall p :: p in st.bands <==> p in order && inputs[p].Rows?)
    decreases |order|
  {
    var st := Run(order, inputs, Initial(capacity), walk);
    if order == [] {
      EmptyLayout<R>(capacity);
    } else {
      var init := order[..|order| - 1];
      var page := order[|order| - 1];
      assert Scheduled(init, inputs) && Distinct(init);
      RunLayout(init, inputs, capacity, walk);
      var st0 := Run(init, inputs, Initial(capacity), walk);
      assert page !in init by {
        forall j | 0 <= j < |init| ensures init[j] != page {
          assert init[j] == order[j];
        }
      }
      forall p ensures p in order <==> p in init || p == page {
        assert order == init + [page];
      }
      if inputs[page].Rows? {
        var pg := walk(inputs[page].rows, st0.cache);
        assert page * Band + |pg.records| < capacity;
        WriteBandLayout(capacity, st0.bands, page, pg);
      }
    }
  }

  /** The ordering theorem for a whole run: the filtered slots list page 0's
      records, then page 1's, and so on, whatever order the pages ran in. */
  lemma RunOrder<Row, R>(order: seq<nat>, inputs: seq<PageRows<Row>>, capacity: nat,
                         walk: (seq<Row>, set<string>) -> Page<R>)
    requires Scheduled(order, inputs) && Distinct(order)
    requires |inputs| * Band <= capacity && WalksFit(inputs, walk)
    requires forall p :: 0 <= p < |inputs| ==> !inputs[p].Panicked?
    ensures var st := Run(order, inputs, Initial(capacity), walk);
      Filter(st.slots) == Flatten(st.bands, |inputs|)
  {
    RunLayout(order, inputs, capacity, walk);
    var st := Run(order, inputs, Initial(capacity), walk);
    LayoutFilter(capacity, st.bands, |inputs|);
  }

  /** A panicking task ends the run. */
  lemma RunPanics<Row, R>(order: seq<nat>, inputs: seq<PageRows<Row>>, init: RunState<R>,
                          walk: (seq<Row>, set<string>) -> Page<R>, j: nat)
    requires Scheduled(order, inputs) && j < |order| && inputs[order[j]].Panicked?
    ensures Run(order, inputs, init, walk).crashed
  {
    assert order[..j + 1][..j] == order[..j];
    RunStaysCrashed(order, j + 1, inputs, init, walk);
  }

  /** A task whose page emits more records than its band has slots left in
      the slice writes past the end of `results`: the run crashes, whatever
      runs after it. */
  lemma RunOverflows<Row, R>(order: seq<nat>, inputs: seq<PageRows<Row>>, init: RunState<R>,
                             walk: (seq<Row>, set<string>) -> Page<R>, j: nat)
    requires Scheduled(order, inputs) && j < |order| && inputs[order[j]].Rows?
    requires var st := Run(order[..j], inputs, init, walk);
      !Fits(order[j], |walk(inputs[order[j]].rows, st.cache).records|, |init.slots|)
    ensures Run(order, inputs, init, walk).crashed
  {
    assert order[..j + 1][..j] == order[..j];
    RunStaysCrashed(order, j + 1, inputs, init, walk);
  }

  /** No key is emitted by two bands or twice by one band, and every emitted
      key is cached. */
  ghost predicate KeysOnce<R>(bands: map<nat, Page<R>>, cache: set<string>) {
    && (forall p, i :: p in bands && 0 <= i < |bands[p].keys| ==> bands[p].keys[i] in cache)
    && (forall p, q, i, j ::
          (p in bands && q in bands && 0 <= i < |bands[p].keys| && 0 <= j < |bands[q].keys| && (p != q || i != j))
          ==> bands[p].keys[i] != bands[q].keys[j])
  }

  /** Deduplication across pages: whatever the schedule, with the walk the
      api, html, images, videos and news closures share, no key is written
      twice, and every key written is in the cache at the end. */
  lemma {:induction false} RunDedup<Row, R>(order: seq<nat>, inputs: seq<PageRows<Row>>, capacity: nat,
                                            key: Row -> Option<string>, build: (Row, string) -> Option<R>)
    requires Scheduled(order, inputs)
    ensures var st := Run(order, inputs, Initial(capacity), GenericWalk(key, build));
      KeysOnce(st.bands, st.cache)
    decreases |order|
  {
    if order != [] {
      var init := order[..|order| - 1];
      var page := order[|order| - 1];
      assert Scheduled(init, inputs);
      RunDedup(init, inputs, capacity, key, build);
      var st0 := Run(init, inputs, Initial(capacity), GenericWalk(key, build));
      if !st0.crashed && inputs[page].Rows? {
        var pg := Walk(inputs[page].rows, st0.cache, key, build);
        WalkFresh(inputs[page].rows, st0.cache, key, build);
        assert GenericWalk(key, build)(inputs[page].rows, st0.cache) == pg;
      }
    }
  }

  // ---------------------------------------------------------------------
  // The closures, imperatively

  /** Go's `next` helper: the first element, if any. The slice it receives is
      a copy, so the caller's rows are never consumed. */
  method Next<T>(it: seq<T>) returns (v: Option<T>, ok: bool)
    ensures ok <==> |it| > 0
    ensures ok ==> v == Some(it[0])
    ensures !ok ==> v == None
  {
    if |it| == 0 {
      return None, false;
    }
    v := Some(it[0]);
    var rest := it[1..];
    ok := true;
  }

  /** The state one search shares between its page tasks: the `cache` of
      seen keys and the pre-allocated `results` slice. */
  class Aggregator<R> {
    var cache: set<string>
    const slots: array<Option<R>>

    /** A fresh search: `capacity` nil slots and an empty cache. */
    constructor(capacity: nat)
      ensures slots.Length == capacity && fresh(slots)
      ensures slots[..] == Initial<R>(capacity).slots && cache == {}
    {
      cache := {};
      slots := new Option<R>[capacity](_ => None);
    }

    /** One page task of the api, html, images, videos or news closure: walk
        the rows, caching each accepted key and writing each emitted record to
        the next slot of the page's band. The write past the end of the
        slice panics; `crashed` reports it, and the state is then that of a
        crashed program. */
    method ProcessPage<Row>(page: nat, rows: seq<Row>,
                            key: Row -> Option<string>, build: (Row, string) -> Option<R>)
      returns (crashed: bool)
      modifies this, slots
      ensures var pg := Walk(rows, old(cache), key, build);
        && (crashed <==> !Fits(page, |pg.records|, slots.Length))
        && (!crashed ==> slots[..] == WriteBand(old(slots[..]), page, pg.records) && cache == pg.cache)
    {
      ghost var c0, s0 := cache, slots[..];
      var priority := page * Band;
      var i := 0;
      while i < |rows|
        invariant 0 <= i <= |rows|
        invariant var pg := Walk(rows[..i], c0, key, build);
          && cache == pg.cache && priority == page * Band + |pg.records|
          && Fits(page, |pg.records|, slots.Length)
          && slots[..] == WriteBand(s0, page, pg.records)
      {
        ghost var pg := Walk(rows[..i], c0, key, build);
        assert rows[..i + 1][..i] == rows[..i];
        var row := rows[i];
        assert rows[..i + 1][i] == row;
        match key(row) {
          case None =>
          case Some(k) =>
            if k !in cache {
              cache := cache + {k};
              match build(row, k) {
                case None =>
                case Some(rec) =>
                  priority := priority + 1;
                  if priority >= slots.Length {
                    WalkPrefix(rows, i + 1, c0, key, build);
                    return true;
                  }
                  WriteBandSnoc(s0, page, pg.records, rec);
                  slots[priority] := Some(rec);
              }
            }
        }
        i := i + 1;
      }
      assert rows[..i] == rows;
      crashed := false;
    }

    /** The page tasks of one search, run one after another in `order`, each
        on the rows its page decoded; a panicking task ends the run. */
    method RunPages<Row>(order: seq<nat>, inputs: seq<PageRows<Row>>,
                         key: Row -> Option<string>, build: (Row, string) -> Option<R>)
      returns (crashed: bool)
      requires Scheduled(order, inputs)
      modifies this, slots
      ensures var st := Run(order, inputs, RunState(old(slots[..]), old(cache), false, map[]), GenericWalk(key, build));
        crashed == st.crashed && (!crashed ==> slots[..] == st.slots && cache == st.cache)
    {
      ghost var init := RunState(slots[..], cache, false, map[]);
      for j := 0 to |order|
        invariant var st := Run(order[..j], inputs, init, GenericWalk(key, build));
          !st.crashed && slots[..] == st.slots && cache == st.cache
      {
        assert order[..j + 1][..j] == order[..j];
        var page := order[j];
        match inputs[page] {
          case NoRows =>
          case Panicked =>
            RunStaysCrashed(order, j + 1, inputs, init, GenericWalk(key, build));
            return true;
          case Rows(rows) =>
            crashed := ProcessPage(page, rows, key, build);
            if crashed {
              RunStaysCrashed(order, j + 1, inputs, init, GenericWalk(key, build));
              return;
            }
        }
      }
      assert order[..|order|] == order;
      crashed := false;
    }

    /** `lo.Slice(lo.Filter(results, non-nil), start, end)`. */
    method Compact(start: int, end: int) returns (out: seq<R>)
      ensures out == LoSlice(Filter(slots[..]), start, end)
    {
      var kept := [];
      for i := 0 to slots.Length
        invariant kept == Filter(slots[..i])
      {
        assert slots[..i + 1][..i] == slots[..i];
        if slots[i].Some? {
          kept := kept + [slots[i].value];
        }
      }
      assert slots[..slots.Length] == slots[..];
      if start >= end {
        return [];
      }
      var lo := if start > |kept| then |kept| else if start < 0 then 0 else start;
      var hi := if end > |kept| then |kept| else if end < 0 then 0 else end;
      out := kept[lo..hi];
    }
  }

  /** Row 0 of a lite page: take its href and, unless the href is rejected,
      cache it and take the link text as title. On rejection the closure
      calls `next` three times on a copy of the rows, which consumes
      nothing. */
  method LiteFirstRow(agg: Aggregator<TextResult>, rows: seq<LiteRow>) returns (href: string, title: string)
    requires |rows| > 0
    modifies agg
    ensures href == LiteHref(rows) && title == LiteTitle(rows, old(agg.cache))
    ensures agg.cache == LiteCache(rows, old(agg.cache))
  {
    href, title := "", "";
    if rows[0].href.Some? {
      href := rows[0].href.value;
      if LiteRejected(href, agg.cache) {
        for _ := 0 to 3
          invariant agg.cache == old(agg.cache)
        {
          var _, _ := Next(rows);
        }
      } else {
        agg.cache := agg.cache + {href};
        title := rows[0].linkText;
      }
    }
  }

  /** One page task of the lite closure, on the search's shared state: row 0
      sets the href and title, row 1 the body, row 2 writes one record from
      whatever was set, and later rows do nothing. */
  method ProcessLitePage(agg: Aggregator<TextResult>, page: nat, rows: seq<LiteRow>, unescape: string -> string)
    returns (crashed: bool)
    modifies agg, agg.slots
    ensures var pg := LiteWalk(rows, old(agg.cache), unescape);
      && (crashed <==> !Fits(page, |pg.records|, agg.slots.Length))
      && (!crashed ==> agg.slots[..] == WriteBand(old(agg.slots[..]), page, pg.records) && agg.cache == pg.cache)
  {
    ghost var c0, s0 := agg.cache, agg.slots[..];
    var priority := page * Band;
    var title, body, href := "", "", "";
    for i := 0 to |rows|
      invariant i >= 1 ==> href == LiteHref(rows) && title == LiteTitle(rows, c0) && agg.cache == LiteCache(rows, c0)
      invariant i == 0 ==> href == "" && title == "" && agg.cache == c0
      invariant body == if i >= 2 then LiteBody(rows) else ""
      invariant i <= 2 ==> agg.slots[..] == s0 && priority == page * Band
      invariant i >= 3 ==> page * Band + 1 < agg.slots.Length
      invariant i >= 3 ==> agg.slots[..] == s0[page * Band + 1 := Some(LiteRecord(rows, c0, unescape))]
    {
      if i == 0 {
        href, title := LiteFirstRow(agg, rows);
      } else if i == 1 {
        body := Concat(rows[1].snippets);
      } else if i == 2 {
        priority := priority + 1;
        if priority >= agg.slots.Length {
          return true;
        }
        agg.slots[priority] := Some(TextResult(Normalize(title, unescape), NormalizeURL(href), Normalize(body, unescape)));
      }
    }
    assert WriteBand(s0, page, []) == s0;
    if |rows| >= 3 {
      WriteBandSnoc(s0, page, [], LiteRecord(rows, c0, unescape));
    }
    crashed := false;
  }

  /** The page tasks of a lite search, run one after another in `order`. */
  method RunLitePages(agg: Aggregator<TextResult>, order: seq<nat>, inputs: seq<PageRows<LiteRow>>, unescape: string -> string)
    returns (crashed: bool)
    requires Scheduled(order, inputs)
    modifies agg, agg.slots
    ensures var st := Run(order, inputs, RunState(old(agg.slots[..]), old(agg.cache), false, map[]), LiteWalker(unescape));
      crashed == st.crashed && (!crashed ==> agg.slots[..] == st.slots && agg.cache == st.cache)
  {
    ghost var init := RunState(agg.slots[..], agg.cache, false, map[]);
    for j := 0 to |order|
      invariant var st := Run(order[..j], inputs, init, LiteWalker(unescape));
        !st.crashed && agg.slots[..] == st.slots && agg.cache == st.cache
    {
      assert order[..j + 1][..j] == order[..j];
      var page := order[j];
      match inputs[page] {
        case NoRows =>
        case Panicked =>
          RunStaysCrashed(order, j + 1, inputs, init, LiteWalker(unescape));
          return true;
        case Rows(rows) =>
          crashed := ProcessLitePage(agg, page, rows, unescape);
          if crashed {
            RunStaysCrashed(order, j + 1, inputs, init, LiteWalker(unescape));
            return;
          }
      }
    }
    assert order[..|order|] == order;
    crashed := false;
  }
}
