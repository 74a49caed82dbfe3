/** Offset pagination (the loop shared by the rooms, events and participants streams) and the
    two folds that describe what a traversal emits: `Scan` over items with a running watermark,
    and `Paged` over the pages of a walk. */
module Paging {
  import opened Values
  import opened Messages
  import opened Api

  /** One paged endpoint with its fixed parameters: from an offset to a response. */
  type Pager<T> = nat -> Result<Option<seq<T>>, JsError>

  /** A page that was fetched, with the offset it was requested at. */
  datatype Page<T> = Page(offset: nat, items: seq<T>)

  /** A fetch that failed, with the offset it was requested at. */
  datatype PageFailure = PageFailure(offset: nat, error: JsError)

  /** Every page a paging loop fetched, in order, and the failure that ended it, if any. */
  datatype Walk<T> = Walk(pages: seq<Page<T>>, failure: Option<PageFailure>)

  /** The error that ended a walk, if one did. */
  function Failed<T>(walk: Walk<T>): Option<JsError> {
    if walk.failure.Some? then Some(walk.failure.value.error) else None
  }

  /** The log lines written for a failed request, which has no items. */
  function FailedPageLog<T>(walk: Walk<T>, pageLog: Page<T> -> seq<Message>): seq<Message> {
    if walk.failure.Some? then pageLog(Page(walk.failure.value.offset, [])) else []
  }

  /** `hasMorePages = items.length === params.limit` */
  predicate Full<T>(r: Result<Option<seq<T>>, JsError>) {
    r.Success? && |Items(r.value)| == PageLimit
  }

  /** The server stops handing out full pages from offset `bound` on. The source loops for ever
      against a server that never does; this model covers the runs that end. */
  ghost predicate EndsBy<T>(fetch: Pager<T>, bound: nat) {
    forall offset: nat :: bound <= offset ==> !Full(fetch(offset))
  }

  /** The paging loop: fetch at `offset`; a failure ends the walk; an empty page or a page whose
      length is not the limit is the last one; otherwise continue at `offset + items.length`. */
  function Paginate<T>(fetch: Pager<T>, offset: nat, ghost bound: nat): Walk<T>
    requires EndsBy(fetch, bound)
    decreases bound + PageLimit - offset
  {
    var response := fetch(offset);
    if response.Failure? then
      Walk([], Some(PageFailure(offset, response.error)))
    else
      var items := Items(response.value);
      if |items| == PageLimit then
        var rest := Paginate(fetch, offset + |items|, bound);
        Walk([Page(offset, items)] + rest.pages, rest.failure)
      else
        Walk([Page(offset, items)], None)
  }

  /** One turn of a paging loop that is `k` pages into the walk it is producing: a failed fetch
      ends the walk there; a fetched page is the walk's next page, and the loop goes on exactly
      when that page is full. */
  lemma PaginateTurn<T>(fetch: Pager<T>, offset: nat, bound: nat, walk: Walk<T>, k: nat)
    requires EndsBy(fetch, bound)
    requires k <= |walk.pages|
    requires Paginate(fetch, offset, bound) == Walk(walk.pages[k..], walk.failure)
    ensures fetch(offset).Failure? ==>
      k == |walk.pages| && walk.failure == Some(PageFailure(offset, fetch(offset).error))
    ensures fetch(offset).Success? ==>
      var items := Items(fetch(offset).value);
      && k < |walk.pages| && walk.pages[k] == Page(offset, items)
      && (|items| == PageLimit ==>
            Paginate(fetch, offset + |items|, bound) == Walk(walk.pages[k + 1..], walk.failure))
      && (|items| != PageLimit ==> k + 1 == |walk.pages| && walk.failure.None?)
  {
    if fetch(offset).Success? {
      assert walk.pages[k..][1..] == walk.pages[k + 1..];
    }
  }

  /** The number of items on `pages`. */
  function TotalItems<T>(pages: seq<Page<T>>): nat {
    if pages == [] then 0 else |pages[0].items| + TotalItems(pages[1..])
  }

  /** Each page of a walk is what the server answered at that page's offset, and a failed walk
      failed with the server's error. */
  lemma {:induction false} PaginateAnswers<T>(fetch: Pager<T>, offset: nat, bound: nat)
    requires EndsBy(fetch, bound)
    ensures var w := Paginate(fetch, offset, bound);
      && (forall i | 0 <= i < |w.pages| ::
            fetch(w.pages[i].offset).Success? && Items(fetch(w.pages[i].offset).value) == w.pages[i].items)
      && (w.failure.Some? ==> fetch(w.failure.value.offset) == Failure(w.failure.value.error))
    decreases bound + PageLimit - offset
  {
    var response := fetch(offset);
    if response.Success? && |Items(response.value)| == PageLimit {
      PaginateAnswers(fetch, offset + PageLimit, bound);
    }
  }

  /** Fetching stops exactly at the first page that is not full: every page but the last is
      full, and a walk that did not fail ends with a page that is not full. */
  lemma {:induction false} PaginateStops<T>(fetch: Pager<T>, offset: nat, bound: nat)
    requires EndsBy(fetch, bound)
    ensures var w := Paginate(fetch, offset, bound);
      && (forall i | 0 <= i < |w.pages| - 1 :: |w.pages[i].items| == PageLimit)
      && (w.failure.None? ==> |w.pages| > 0 && |w.pages[|w.pages| - 1].items| != PageLimit)
    decreases bound + PageLimit - offset
  {
    var response := fetch(offset);
    if response.Success? && |Items(response.value)| == PageLimit {
      PaginateStops(fetch, offset + PageLimit, bound);
    }
  }

  /** The offset accounting of the paging loop: the first request is
      at the starting offset, and each later one, including a failed last one, at the starting
      offset plus the number of items on all earlier pages. */
  lemma {:induction false} PaginateAccounting<T>(fetch: Pager<T>, offset: nat, bound: nat)
    requires EndsBy(fetch, bound)
    ensures var w := Paginate(fetch, offset, bound);
      && (forall i | 0 <= i < |w.pages| :: w.pages[i].offset == offset + TotalItems(w.pages[..i]))
      && (w.failure.Some? ==> w.failure.value.offset == offset + TotalItems(w.pages))
    decreases bound + PageLimit - offset
  {
    var w := Paginate(fetch, offset, bound);
    var response := fetch(offset);
    if response.Success? && |Items(response.value)| == PageLimit {
      var items := Items(response.value);
      var next := offset + |items|;
      PaginateAccounting(fetch, next, bound);
      var rest := Paginate(fetch, next, bound);
      assert w.pages == [Page(offset, items)] + rest.pages;
      forall i | 0 <= i < |w.pages|
        ensures w.pages[i].offset == offset + TotalItems(w.pages[..i])
      {
        if i > 0 {
          assert w.pages[..i][1..] == rest.pages[..i - 1];
        }
      }
      if w.failure.Some? {
        assert w.pages[1..] == rest.pages;
      }
    }
  }

  /** Every page of a walk but the last is full, so the k-th request is at `offset + k * 100`. */
  lemma PaginateOffsets<T>(fetch: Pager<T>, offset: nat, bound: nat)
    requires EndsBy(fetch, bound)
    ensures var w := Paginate(fetch, offset, bound);
      forall i | 0 <= i < |w.pages| :: w.pages[i].offset == offset + i * PageLimit
  {
    var w := Paginate(fetch, offset, bound);
    PaginateAccounting(fetch, offset, bound);
    PaginateStops(fetch, offset, bound);
    forall i | 0 <= i < |w.pages|
      ensures w.pages[i].offset == offset + i * PageLimit
    {
      FullPagesTotal(w.pages[..i]);
    }
  }

  lemma {:induction false} FullPagesTotal<T>(pages: seq<Page<T>>)
    requires forall i | 0 <= i < |pages| :: |pages[i].items| == PageLimit
    ensures TotalItems(pages) == |pages| * PageLimit
  {
    if pages != [] {
      FullPagesTotal(pages[1..]);
    }
  }

  // ---------------------------------------------------------------------------------------------
  // Folds

  /** The `for (const item of items)` loop of a stream: each step emits some lines and moves
      the watermark. */
  function Scan<T>(step: (int, T) -> Emission, wm: int, items: seq<T>): Emission {
    if items == [] then Emission([], wm)
    else
      var prev := Scan(step, wm, items[..|items| - 1]);
      var last := step(prev.wm, items[|items| - 1]);
      Emission(prev.out + last.out, last.wm)
  }

  /** Scanning `a + b` is scanning `a`, then `b` from where `a` left the watermark. */
  lemma {:induction false} ScanAppend<T>(step: (int, T) -> Emission, wm: int, a: seq<T>, b: seq<T>)
    ensures var first := Scan(step, wm, a);
      var second := Scan(step, first.wm, b);
      Scan(step, wm, a + b) == Emission(first.out + second.out, second.wm)
    decreases |b|
  {
    if b == [] {
      assert a + b == a;
    } else {
      assert (a + b)[..|a + b| - 1] == a + b[..|b| - 1];
      ScanAppend(step, wm, a, b[..|b| - 1]);
    }
  }

  /** Extending a scan by its next item: what was written before it, the scan so far and the
      item's step are the output of the longer scan. */
  lemma ScanExtend<T>(step: (int, T) -> Emission, wm: int, items: seq<T>, i: nat, before: seq<Message>)
    requires i < |items|
    ensures var prev := Scan(step, wm, items[..i]);
      var last := step(prev.wm, items[i]);
      var next := Scan(step, wm, items[..i + 1]);
      && before + prev.out + last.out == before + next.out
      && next.wm == last.wm
  {
    assert items[..i + 1][..i] == items[..i];
  }

  /** A step that never lowers the watermark gives a scan whose watermark never decreases from
      one prefix of the items to a longer one. */
  lemma {:induction false} ScanNeverDecreases<T>(step: (int, T) -> Emission, wm: int, items: seq<T>, i: nat, j: nat)
    requires forall w, x :: step(w, x).wm >= w
    requires i <= j <= |items|
    ensures wm <= Scan(step, wm, items[..i]).wm <= Scan(step, wm, items[..j]).wm
    decreases j
  {
    if j > 0 {
      if i < j {
        ScanNeverDecreases(step, wm, items, i, j - 1);
        assert items[..j][..j - 1] == items[..j - 1];
      } else {
        ScanNeverDecreases(step, wm, items, i - 1, j - 1);
        assert items[..j][..j - 1] == items[..j - 1];
      }
    }
  }

  lemma {:induction false} ScanNoStates<T>(step: (int, T) -> Emission, wm: int, items: seq<T>)
    requires forall w, x :: NoStates(step(w, x).out)
    ensures NoStates(Scan(step, wm, items).out)
    decreases |items|
  {
    if items != [] {
      ScanNoStates(step, wm, items[..|items| - 1]);
    }
  }

  /** The items of `pages`, in page order. */
  function AllItems<T>(pages: seq<Page<T>>): seq<T> {
    if pages == [] then [] else AllItems(pages[..|pages| - 1]) + pages[|pages| - 1].items
  }

  /** The `while (hasMorePages)` loop around a scan: each page writes its own log lines, then
      the lines of its items, the watermark running on from page to page. */
  function Paged<T>(step: (int, T) -> Emission, pageLog: Page<T> -> seq<Message>, wm: int, pages: seq<Page<T>>): Emission {
    if pages == [] then Emission([], wm)
    else
      var prev := Paged(step, pageLog, wm, pages[..|pages| - 1]);
      var last := pages[|pages| - 1];
      var e := Scan(step, prev.wm, last.items);
      Emission(prev.out + pageLog(last) + e.out, e.wm)
  }

  /** Extending a paged walk by its next page: what was written before it, the walk so far, the
      page's log lines and its scan are the output of the longer walk. */
  lemma PagedExtend<T>(step: (int, T) -> Emission, pageLog: Page<T> -> seq<Message>, wm: int, pages: seq<Page<T>>, k: nat,
                       before: seq<Message>)
    requires k < |pages|
    ensures var prev := Paged(step, pageLog, wm, pages[..k]);
      var e := Scan(step, prev.wm, pages[k].items);
      var next := Paged(step, pageLog, wm, pages[..k + 1]);
      && before + prev.out + pageLog(pages[k]) + e.out == before + next.out
      && next.wm == e.wm
  {
    assert pages[..k + 1][..k] == pages[..k];
  }

  /** Page boundaries do not matter to the records and the watermark: with log lines that carry
      no record, a paged walk emits exactly the records of one scan over all its items, and ends
      at the same watermark. */
  lemma {:induction false} PagedIsScan<T>(step: (int, T) -> Emission, pageLog: Page<T> -> seq<Message>, wm: int, pages: seq<Page<T>>)
    requires forall p :: RecordsOf(pageLog(p)) == []
    ensures RecordsOf(Paged(step, pageLog, wm, pages).out) == RecordsOf(Scan(step, wm, AllItems(pages)).out)
    ensures Paged(step, pageLog, wm, pages).wm == Scan(step, wm, AllItems(pages)).wm
    decreases |pages|
  {
    if pages != [] {
      var init := pages[..|pages| - 1];
      var last := pages[|pages| - 1];
      PagedIsScan(step, pageLog, wm, init);
      var prev := Paged(step, pageLog, wm, init);
      var before := Scan(step, wm, AllItems(init));
      var e := Scan(step, prev.wm, last.items);
      assert Paged(step, pageLog, wm, pages) == Emission(prev.out + pageLog(last) + e.out, e.wm);
      assert AllItems(pages) == AllItems(init) + last.items;
      ScanAppend(step, wm, AllItems(init), last.items);
      RecordsOfSkip(prev.out, pageLog(last), e.out);
      RecordsOfAppend(before.out, e.out);
    }
  }

  lemma {:induction false} PagedNoStates<T>(step: (int, T) -> Emission, pageLog: Page<T> -> seq<Message>, wm: int, pages: seq<Page<T>>)
    requires forall w, x :: NoStates(step(w, x).out)
    requires forall p :: NoStates(pageLog(p))
    ensures NoStates(Paged(step, pageLog, wm, pages).out)
    decreases |pages|
  {
    if pages != [] {
      var prev := Paged(step, pageLog, wm, pages[..|pages| - 1]);
      PagedNoStates(step, pageLog, wm, pages[..|pages| - 1]);
      ScanNoStates(step, prev.wm, pages[|pages| - 1].items);
    }
  }

  lemma {:induction false} PagedNeverDecreases<T>(step: (int, T) -> Emission, pageLog: Page<T> -> seq<Message>, wm: int, pages: seq<Page<T>>)
    requires forall w, x :: step(w, x).wm >= w
    ensures Paged(step, pageLog, wm, pages).wm >= wm
    decreases |pages|
  {
    if pages != [] {
      var prev := Paged(step, pageLog, wm, pages[..|pages| - 1]);
      var items := pages[|pages| - 1].items;
      PagedNeverDecreases(step, pageLog, wm, pages[..|pages| - 1]);
      ScanNeverDecreases(step, prev.wm, items, 0, |items|);
      assert items[..|items|] == items;
    }
  }

  /** A run made of log lines, a paged traversal and more log lines, then closed, is well formed,
      and its records and watermark are those of the traversal. */
  lemma PagedRunWellFormed<T>(stream: string, prefix: string, completed: string, head: seq<Message>,
                              step: (int, T) -> Emission, pageLog: Page<T> -> seq<Message>, pages: seq<Page<T>>,
                              tail: seq<Message>, failure: Option<JsError>, state: StreamState)
    requires forall w, x :: NoStates(step(w, x).out) && step(w, x).wm >= w
    requires forall p :: NoStates(pageLog(p))
    requires forall i | 0 <= i < |head| :: head[i].LogMessage?
    requires forall i | 0 <= i < |tail| :: tail[i].LogMessage?
    ensures var body := Paged(step, pageLog, PriorWatermark(state), pages);
      var run := Close(stream, prefix, completed, head + body.out + tail, body.wm, failure, state);
      && WellFormedRun(run, stream, prefix, completed, state)
      && RecordsOf(run.out) == RecordsOf(body.out) && run.watermark == body.wm
  {
    var body := Paged(step, pageLog, PriorWatermark(state), pages);
    PagedNoStates(step, pageLog, PriorWatermark(state), pages);
    PagedNeverDecreases(step, pageLog, PriorWatermark(state), pages);
    RecordsOfNone(head);
    RecordsOfNone(tail);
    RecordsOfAppend(head, body.out);
    RecordsOfAppend(head + body.out, tail);
    assert NoStates(head) && NoStates(tail);
    NoStatesAppend(head, body.out);
    NoStatesAppend(head + body.out, tail);
    CloseWellFormed(stream, prefix, completed, head + body.out + tail, body.wm, failure, state);
  }
}
