/** Specifications of the three extraction strategies, in terms of the pages
    the client returns: which pages each strategy fetches, which records it
    returns and in what order, what it hands the batch callback, and which
    LIMIT/OFFSET queries offset batching sends. The connector's methods are
    proved to compute exactly these. */
module Extraction {
  import opened Common
  import opened Soql
  import opened Remote

  /** `result.get('totalSize', 0)` */
  function TotalSize(p: Page): int
  {
    p.totalSize.GetOr(0)
  }

  /** `result.get('done', True)`: a page that does not say is the last one. */
  predicate Done(p: Page)
  {
    p.done.GetOr(true)
  }

  /** `query_more(result['nextRecordsUrl'])`; a missing URL raises KeyError
      inside the same `try`, so it fails the same way as the call itself. */
  function NextPage(p: Page, more: string -> Option<Page>): Option<Page>
  {
    match p.nextRecordsUrl
    case None => None
    case Some(url) => more(url)
  }

  // ---- pages and the records they carry ----

  /** The records of `pages`, page after page, each page's in its own order. */
  function Flatten(pages: seq<Page>): seq<Record>
  {
    if pages == [] then [] else pages[0].records + Flatten(pages[1..])
  }

  /** Sum of the page sizes. */
  function RecordCount(pages: seq<Page>): nat
  {
    if pages == [] then 0 else |pages[0].records| + RecordCount(pages[1..])
  }

  /** Every record object that occurs on one of `pages`. */
  function RecordSet(pages: seq<Page>): set<Record>
  {
    set r | r in Flatten(pages)
  }

  /** The records of any one page are among those of the pages. */
  lemma {:induction false} PageRecordsIncluded(pages: seq<Page>, k: nat)
    requires k < |pages|
    ensures forall r :: r in pages[k].records ==> r in RecordSet(pages)
  {
    if k > 0 {
      PageRecordsIncluded(pages[1..], k - 1);
    }
  }

  lemma {:induction false} FlattenAppend(a: seq<Page>, b: seq<Page>)
    ensures Flatten(a + b) == Flatten(a) + Flatten(b)
  {
    if a == [] {
      assert a + b == b;
    } else {
      assert (a + b)[1..] == a[1..] + b;
      FlattenAppend(a[1..], b);
    }
  }

  /** The result holds as many records as the pages together. */
  lemma {:induction false} FlattenLength(pages: seq<Page>)
    ensures |Flatten(pages)| == RecordCount(pages)
  {
    if pages != [] {
      FlattenLength(pages[1..]);
    }
  }

  /** Page `k`'s records sit, unchanged and in order, right after the records
      of the pages before it. */
  lemma FlattenPlacesPage(pages: seq<Page>, k: nat)
    requires k < |pages|
    ensures RecordCount(pages[..k]) + |pages[k].records| <= |Flatten(pages)|
    ensures Flatten(pages)[RecordCount(pages[..k])..RecordCount(pages[..k]) + |pages[k].records|]
         == pages[k].records
  {
    assert pages == pages[..k] + ([pages[k]] + pages[k + 1..]);
    FlattenAppend(pages[..k], [pages[k]] + pages[k + 1..]);
    FlattenLength(pages[..k]);
    assert Flatten([pages[k]] + pages[k + 1..]) == pages[k].records + Flatten(pages[k + 1..]);
  }

  /** The callback invocations for `pages`: batch k+1 gets page k's records. */
  function Notify(callback: Option<Callback>, pages: seq<Page>, total: int): seq<Call>
  {
    match callback
    case None => []
    case Some(cb) =>
      seq(|pages|, k requires 0 <= k < |pages| =>
        Call(pages[k].records, k + 1, total, cb.raises(pages[k].records, k + 1, total)))
  }

  lemma NotifyAppend(callback: Option<Callback>, pages: seq<Page>, p: Page, total: int)
    requires callback.Some?
    ensures Notify(callback, pages + [p], total)
         == Notify(callback, pages, total)
            + [Call(p.records, |pages| + 1, total, callback.value.raises(p.records, |pages| + 1, total))]
  {
  }

  /** What one strategy does: its outcome, the pages it fetched (whose records
      it stripped), the OFFSET of each batch query it sent, and the third
      argument it passes the callback. */
  datatype Extracted = Extracted(
    result: Result<seq<Record>>,
    pages: seq<Page>,
    offsets: seq<int>,
    callbackTotal: int)

  // ---- full pull ----

  /** `_query_all_data`: one `query_all`, whose records are returned as they are. */
  function FullPull(c: Client, q: string): Extracted
  {
    match c.queryAll(q)
    case None => Extracted(Err(QueryFailed), [], [], 0)
    case Some(p) => Extracted(Ok(p.records), [p], [], TotalSize(p))
  }

  /** A full pull fails exactly when its one `query_all` raises; otherwise it
      returns that page's records, as many as the page holds, in its order. */
  lemma FullPullRecords(c: Client, q: string)
    ensures FullPull(c, q).result.Ok? <==> c.queryAll(q).Some?
    ensures c.queryAll(q).Some? ==>
      var e := FullPull(c, q);
      && e.pages == [c.queryAll(q).value]
      && e.result.value == Flatten(e.pages)
      && |e.result.value| == RecordCount(e.pages) == |c.queryAll(q).value.records|
  {
    if c.queryAll(q).Some? {
      var p := c.queryAll(q).value;
      assert Flatten([p]) == p.records + Flatten([]);
      assert RecordCount([p]) == |p.records| + RecordCount([]);
    }
  }

  // ---- cursor pagination ----

  /** The pages the cursor loop reads from `p` on, allowing at most `fuel` more
      `query_more` calls: it stops at a done page and right after a failed call. */
  function Cursor(p: Page, more: string -> Option<Page>, fuel: nat): seq<Page>
    decreases fuel
  {
    if Done(p) then [p]
    else match NextPage(p, more)
      case None => [p]
      case Some(next) => if fuel == 0 then [p] else [p] + Cursor(next, more, fuel - 1)
  }

  /** The remote ends the cursor (a done page or a failed call) within `fuel` fetches. */
  predicate CursorEnds(p: Page, more: string -> Option<Page>, fuel: nat)
    decreases fuel
  {
    || Done(p)
    || NextPage(p, more).None?
    || (fuel > 0 && CursorEnds(NextPage(p, more).value, more, fuel - 1))
  }

  /** The cursor reads the first page, then each next page through its
      predecessor's URL, only while the page read is not done; it ends at the
      first done page or at the first failed `query_more`, which is not retried. */
  lemma {:induction false} CursorShape(p: Page, more: string -> Option<Page>, fuel: nat)
    requires CursorEnds(p, more, fuel)
    ensures var pages := Cursor(p, more, fuel);
      && |pages| > 0 && pages[0] == p
      && (forall k :: 0 <= k < |pages| - 1 ==>
            !Done(pages[k]) && NextPage(pages[k], more) == Some(pages[k + 1]))
      && (Done(pages[|pages| - 1]) || NextPage(pages[|pages| - 1], more).None?)
    decreases fuel
  {
    if !Done(p) && NextPage(p, more).Some? {
      var next := NextPage(p, more).value;
      CursorShape(next, more, fuel - 1);
      var tail := Cursor(next, more, fuel - 1);
      assert Cursor(p, more, fuel) == [p] + tail;
    }
  }

  /** The cursor starts with the page it is given. */
  lemma CursorStart(p: Page, more: string -> Option<Page>, fuel: nat)
    ensures var pages := Cursor(p, more, fuel);
      |pages| > 0 && pages[0] == p
  {
  }

  /** What the cursor loop sees at its `j`-th page: before the last one the
      page is not done and its URL leads to the next page; the last one is
      done or its URL is missing or fails. */
  lemma CursorAt(p: Page, more: string -> Option<Page>, fuel: nat, j: nat)
    requires CursorEnds(p, more, fuel) && j < |Cursor(p, more, fuel)|
    ensures var pages := Cursor(p, more, fuel);
      && (j < |pages| - 1 ==> !Done(pages[j]) && NextPage(pages[j], more) == Some(pages[j + 1]))
      && (j == |pages| - 1 ==> Done(pages[j]) || NextPage(pages[j], more).None?)
  {
    CursorShape(p, more, fuel);
  }

  /** `_query_with_pagination`: the first page from `query`, then the cursor. */
  function CursorPagination(c: Client, q: string, fuel: nat): Extracted
  {
    match c.query(q)
    case None => Extracted(Err(QueryFailed), [], [], 0)
    case Some(first) =>
      var pages := Cursor(first, c.queryMore, fuel);
      Extracted(Ok(Flatten(pages)), pages, [], TotalSize(first))
  }

  predicate PaginationEnds(c: Client, q: string, fuel: nat)
  {
    c.query(q).Some? ==> CursorEnds(c.query(q).value, c.queryMore, fuel)
  }

  // ---- offset batching ----

  /** Python's `a // b`: division rounding toward negative infinity. */
  function FloorDiv(a: int, b: int): int
    requires b != 0
  {
    if b > 0 then a / b else (-a) / (-b)
  }

  lemma FloorDivIsFloor(a: int, b: int)
    requires b != 0
    ensures b > 0 ==> FloorDiv(a, b) * b <= a < (FloorDiv(a, b) + 1) * b
    ensures b < 0 ==> (FloorDiv(a, b) + 1) * b < a <= FloorDiv(a, b) * b
  {
    if b < 0 {
      var d := (-a) / (-b);
      assert d * (-b) <= -a < (d + 1) * (-b);
      assert d * b == -(d * (-b)) && (d + 1) * b == -((d + 1) * (-b));
    }
  }

  /** `(total_records + batch_size - 1) // batch_size` */
  function TotalBatches(total: int, size: int): int
    requires size != 0
  {
    FloorDiv(total + size - 1, size)
  }

  /** For a positive batch size, the batch count is the ceiling of total / size. */
  lemma TotalBatchesIsCeiling(total: int, size: int)
    requires size > 0
    ensures (TotalBatches(total, size) - 1) * size < total <= TotalBatches(total, size) * size
    ensures total > 0 <==> TotalBatches(total, size) > 0
  {
    var n := TotalBatches(total, size);
    FloorDivIsFloor(total + size - 1, size);
    assert (n + 1) * size == n * size + size;
    assert (n - 1) * size == n * size - size;
  }

  /** The batch loop from batch index `k` on, with `n` batches planned: the
      pages it read, the OFFSET of every batch query it sent, and whether the
      last one failed. */
  datatype BatchRun = BatchRun(pages: seq<Page>, offsets: seq<int>, aborted: bool)

  /** What `query_all` answers to the batch query for each offset. */
  function BatchAnswers(queryAll: string -> Option<Page>, q: string, size: int): int -> Option<Page>
  {
    offset => queryAll(BatchQuery(q, size, offset))
  }

  /** The batch loop from batch index `k` on, `ask` giving the answer to the
      batch query for an offset. */
  function RunBatches(ask: int -> Option<Page>, size: int, k: nat, n: int): BatchRun
    decreases n - k
  {
    if k >= n then BatchRun([], [], false)
    else
      match ask(k * size)
      case None => BatchRun([], [k * size], true)
      case Some(p) =>
        if |p.records| < size then BatchRun([p], [k * size], false)
        else
          var rest := RunBatches(ask, size, k + 1, n);
          BatchRun([p] + rest.pages, [k * size] + rest.offsets, rest.aborted)
  }

  /** 5000 records in batches of 2000: when every batch comes back full, the
      loop sends three batch queries, at offsets 0, 2000 and 4000, and reads
      three pages. */
  lemma TotalBatchesExample(ask: int -> Option<Page>)
    requires forall o :: ask(o).Some? && |ask(o).value.records| >= 2000
    ensures TotalBatches(5000, 2000) == 3
    ensures var run := RunBatches(ask, 2000, 0, TotalBatches(5000, 2000));
      run.offsets == [0, 2000, 4000] && |run.pages| == 3 && !run.aborted
  {
    assert TotalBatches(5000, 2000) == 3;
    var last := RunBatches(ask, 2000, 2, 3);
    assert last.offsets == [4000] + [];
    var second := RunBatches(ask, 2000, 1, 3);
    assert second.offsets == [2000] + last.offsets;
  }

  /** The batch loop sends the queries for offsets k*size, (k+1)*size, ... in
      order, at least one when a batch is planned and no more than planned. */
  lemma {:induction false} RunBatchesOffsets(ask: int -> Option<Page>, size: int, k: nat, n: int)
    ensures var run := RunBatches(ask, size, k, n);
      && |run.offsets| <= (if n > k then n - k else 0)
      && (n > k ==> |run.offsets| > 0)
      && (forall j :: 0 <= j < |run.offsets| ==> run.offsets[j] == (k + j) * size)
    decreases n - k
  {
    var run := RunBatches(ask, size, k, n);
    if k < n {
      var first := ask(k * size);
      if first.Some? && |first.value.records| >= size {
        RunBatchesOffsets(ask, size, k + 1, n);
        var rest := RunBatches(ask, size, k + 1, n);
        assert run.offsets == [k * size] + rest.offsets;
        forall j | 0 < j < |run.offsets|
          ensures run.offsets[j] == (k + j) * size
        {
          assert run.offsets[j] == rest.offsets[j - 1];
          assert k + 1 + (j - 1) == k + j;
        }
      }
    }
  }

  /** Each query sent is answered by the next page, or, only for the last one
      when the run aborts, by a failure; every batch but the last is full, so
      nothing is requested after a short batch; and a run that sends fewer
      queries than planned without failing ended on a short batch. */
  lemma {:induction false} RunBatchesPages(ask: int -> Option<Page>, size: int, k: nat, n: int)
    ensures var run := RunBatches(ask, size, k, n);
      && |run.pages| == |run.offsets| - (if run.aborted then 1 else 0)
      && (forall j :: 0 <= j < |run.pages| ==> ask(run.offsets[j]) == Some(run.pages[j]))
      && (run.aborted ==> ask(run.offsets[|run.offsets| - 1]).None?)
      && (forall j :: 0 <= j < |run.offsets| - 1 ==> |run.pages[j].records| >= size)
      && (!run.aborted && 0 < |run.offsets| < n - k ==> |run.pages[|run.pages| - 1].records| < size)
    decreases n - k
  {
    var run := RunBatches(ask, size, k, n);
    if k < n {
      var first := ask(k * size);
      if first.Some? && |first.value.records| >= size {
        RunBatchesPages(ask, size, k + 1, n);
        var rest := RunBatches(ask, size, k + 1, n);
        assert run.offsets == [k * size] + rest.offsets;
        assert run.pages == [first.value] + rest.pages;
      }
    }
  }

  /** The batch loop from index 0 sends no more queries than planned, at
      least one when any is planned, and reads a page for every query but a
      failed last one. */
  lemma RunBatchesSizes(ask: int -> Option<Page>, size: int, n: int)
    ensures var run := RunBatches(ask, size, 0, n);
      && |run.pages| <= |run.offsets| <= (if n > 0 then n else 0)
      && (n > 0 ==> |run.offsets| > 0)
      && |run.pages| == |run.offsets| - (if run.aborted then 1 else 0)
  {
    RunBatchesOffsets(ask, size, 0, n);
    RunBatchesPages(ask, size, 0, n);
  }

  /** What the batch loop does at its `j`-th query: it asks for offset
      j*size, gets the j-th page or, only at the last query of an aborted run,
      a failure; a short page is the last one, and after a full page either
      another query follows or the plan is exhausted. */
  lemma RunBatchAt(ask: int -> Option<Page>, size: int, n: int, j: nat)
    requires j < |RunBatches(ask, size, 0, n).offsets|
    ensures var run := RunBatches(ask, size, 0, n);
      && j < n
      && run.offsets[j] == j * size
      && (j < |run.pages| ==> ask(j * size) == Some(run.pages[j]))
      && (j >= |run.pages| ==> run.aborted && j == |run.pages| == |run.offsets| - 1 && ask(j * size).None?)
      && (j < |run.pages| && |run.pages[j].records| < size ==> !run.aborted && j == |run.pages| - 1 == |run.offsets| - 1)
      && (j < |run.pages| && |run.pages[j].records| >= size ==> j + 1 < |run.offsets| || j + 1 >= n)
  {
    var run := RunBatches(ask, size, 0, n);
    RunBatchesOffsets(ask, size, 0, n);
    RunBatchesPages(ask, size, 0, n);
    assert run.offsets[j] == (0 + j) * size;
  }

  /** `query_count` after connecting: the rewritten count query, then its `totalSize`. */
  function CountOutcome(c: Client, q: string): Result<int>
  {
    match CountQuery(q)
    case None => Err(InvalidQueryFormat)
    case Some(countQuery) =>
      match c.query(countQuery)
      case None => Err(QueryFailed)
      case Some(p) => Ok(TotalSize(p))
  }

  /** `query_in_batches` after connecting. */
  function OffsetBatching(c: Client, q: string, size: int): Extracted
  {
    AfterCount(c.queryAll, q, size, CountOutcome(c, q))
  }

  /** `query_in_batches` once the count query has had the outcome `count`. */
  function AfterCount(queryAll: string -> Option<Page>, q: string, size: int, count: Result<int>): Extracted
  {
    match count
    case Err(e) => Extracted(Err(e), [], [], 0)
    case Ok(total) =>
      if total == 0 then Extracted(Ok([]), [], [], 0)
      else if size == 0 then Extracted(Err(ZeroBatchSize), [], [], 0)
      else
        var n := TotalBatches(total, size);
        var run := RunBatches(BatchAnswers(queryAll, q, size), size, 0, n);
        Extracted(if run.aborted then Err(QueryFailed) else Ok(Flatten(run.pages)), run.pages, run.offsets, n)
  }

  /** With a positive batch size and a positive count, the planned batches
      ask for offsets 0, size, 2*size, ... below the total and at least one. */
  lemma BatchPlanBounds(ask: int -> Option<Page>, size: int, total: int)
    requires size > 0 && total > 0
    ensures var run := RunBatches(ask, size, 0, TotalBatches(total, size));
      && 0 < |run.offsets|
      && (|run.offsets| - 1) * size < total
      && (forall k :: 0 <= k < |run.offsets| ==> run.offsets[k] == k * size < total)
  {
    var n := TotalBatches(total, size);
    TotalBatchesIsCeiling(total, size);
    RunBatchesOffsets(ask, size, 0, n);
    var run := RunBatches(ask, size, 0, n);
    BelowLastBatch(|run.offsets| - 1, n, size, total);
    forall k | 0 <= k < |run.offsets|
      ensures run.offsets[k] == k * size < total
    {
      BelowLastBatch(k, n, size, total);
    }
  }

  lemma BelowLastBatch(k: int, n: int, size: int, total: int)
    requires k < n && size > 0 && (n - 1) * size < total
    ensures k * size < total
  {
    assert (n - 1 - k) * size >= 0;
  }

  /** With a positive batch size: a failed count sends no batch query, and
      neither does a count of zero or less, which yields no records; otherwise
      the k-th batch query asks for offset k*size, every offset asked for lies
      below the counted total, at most ceil(total/size) batch queries go out,
      each page is `query_all`'s answer to its batch query, no batch query
      follows a batch shorter than the size, and the records are those of the
      batches in order unless a batch query failed. */
  lemma OffsetBatchingBounds(queryAll: string -> Option<Page>, q: string, size: int, count: Result<int>)
    requires size > 0
    ensures var o := AfterCount(queryAll, q, size, count);
      && (count.Err? ==> o.result == Err(count.failure) && o.offsets == [])
      && (count.Ok? && count.value <= 0 ==> o.result == Ok([]) && o.offsets == [])
      && (count.Ok? && count.value > 0 ==>
            && 0 < |o.offsets|
            && (|o.offsets| - 1) * size < count.value
            && (forall k :: 0 <= k < |o.offsets| ==> o.offsets[k] == k * size < count.value)
            && |o.offsets| - 1 <= |o.pages| <= |o.offsets|
            && (forall k :: 0 <= k < |o.pages| ==> queryAll(BatchQuery(q, size, o.offsets[k])) == Some(o.pages[k]))
            && (forall k :: 0 <= k < |o.offsets| - 1 ==> |o.pages[k].records| >= size)
            && (o.result.Ok? ==> o.result.value == Flatten(o.pages) && |o.pages| == |o.offsets|))
  {
    if count.Ok? && count.value != 0 {
      var n := TotalBatches(count.value, size);
      var ask := BatchAnswers(queryAll, q, size);
      RunBatchesPages(ask, size, 0, n);
      if count.value > 0 {
        BatchPlanBounds(ask, size, count.value);
      } else {
        TotalBatchesIsCeiling(count.value, size);
        RunBatchesOffsets(ask, size, 0, n);
      }
    }
  }
}
