/** The `SalesforceConnector` object: a stored session (`self.sf`) that is
    opened lazily, and the public calls that run the extraction strategies
    against it. Each method is proved to compute the outcome its specification
    in `Extraction` describes, to leave a stored session alone, and to strip
    `attributes` from exactly the records of the pages it fetched. */
module Connector {
  import opened Common
  import opened Soql
  import opened Remote
  import opened Extraction

  /** The session a call works with: the stored one, or else whatever a
      login attempt gives (None when it raised). */
  function Session(sf: Option<Client>, login: Option<Client>): (s: Option<Client>)
    ensures sf.Some? ==> s == sf
    ensures s.Some? <==> sf.Some? || login.Some?
    ensures s != sf ==> sf.None? && s == login
  {
    if sf.Some? then sf else login
  }

  /** A second lazy connect never replaces the session the first one left. */
  lemma SessionSettles(sf: Option<Client>, login: Option<Client>, relogin: Option<Client>)
    requires Session(sf, login).Some?
    ensures Session(Session(sf, login), relogin) == Session(sf, login)
  {
  }

  /** `query_data` once the session is settled. */
  function DataOutcome(session: Option<Client>, q: string, paginate: bool, fuel: nat): Extracted
  {
    match session
    case None => Extracted(Err(ConnectFailed), [], [], 0)
    case Some(c) => if paginate then CursorPagination(c, q, fuel) else FullPull(c, q)
  }

  /** `query_count` once the session is settled. */
  function CountResult(session: Option<Client>, q: string): Result<int>
  {
    match session
    case None => Err(ConnectFailed)
    case Some(c) => CountOutcome(c, q)
  }

  /** `query_in_batches` once the session is settled. */
  function BatchesOutcome(session: Option<Client>, q: string, size: int): Extracted
  {
    match session
    case None => Extracted(Err(ConnectFailed), [], [], 0)
    case Some(c) => OffsetBatching(c, q, size)
  }

  /** The batch queries sent for the given offsets. */
  function BatchQueries(q: string, size: int, offsets: seq<int>): seq<string>
  {
    seq(|offsets|, j requires 0 <= j < |offsets| => BatchQuery(q, size, offsets[j]))
  }

  class SalesforceConnector {
    /** The open session, None until a connect succeeds. */
    var sf: Option<Client>
    /** Name of the secret holding the login credentials. */
    const credentialSecret: string

    constructor(credentialSecret: string)
      ensures sf == None && this.credentialSecret == credentialSecret
    {
      sf := None;
      this.credentialSecret := credentialSecret;
    }

    /** `connect()`: `login` is what the secret lookup and login give, None
        when either raised; on failure the stored session is left as it was. */
    method Connect(login: Option<Client>) returns (ok: bool)
      modifies this
      ensures ok == login.Some?
      ensures sf == if login.Some? then login else old(sf)
    {
      if login.None? {
        return false;
      }
      sf := login;
      ok := true;
    }

    /** `if not self.sf: self.connect()` */
    method EnsureConnected(login: Option<Client>) returns (ok: bool)
      modifies this
      ensures sf == Session(old(sf), login)
      ensures ok == sf.Some?
    {
      ok := true;
      if sf.None? {
        ok := Connect(login);
      }
    }

    /** `_query_all_data` */
    method QueryAllData(q: string) returns (r: Result<seq<Record>>)
      requires sf.Some?
      requires forall rec :: rec in RecordSet(FullPull(sf.value, q).pages) ==> allocated(rec)
      modifies RecordSet(FullPull(sf.value, q).pages)
      ensures r == FullPull(sf.value, q).result
      ensures forall rec :: rec in RecordSet(FullPull(sf.value, q).pages) ==>
                rec.fields == old(rec.fields) - {Attributes}
      ensures r.Ok? ==> forall rec :: rec in r.value ==> Attributes !in rec.fields
    {
      var result := sf.value.queryAll(q);
      if result.None? {
        return Err(QueryFailed);
      }
      assert Flatten([result.value]) == result.value.records;
      var records := StripAttributes(result.value.records);
      r := Ok(records);
    }

    /** `_query_with_pagination`; `fuel` bounds the number of `query_more`
        calls the remote needs to end the cursor. */
    method QueryWithPagination(q: string, callback: Option<Callback>, ghost fuel: nat)
      returns (r: Result<seq<Record>>, calls: seq<Call>)
      requires sf.Some? && PaginationEnds(sf.value, q, fuel)
      requires forall rec :: rec in RecordSet(CursorPagination(sf.value, q, fuel).pages) ==> allocated(rec)
      modifies RecordSet(CursorPagination(sf.value, q, fuel).pages)
      ensures var e := CursorPagination(sf.value, q, fuel);
        && r == e.result
        && calls == Notify(callback, e.pages, e.callbackTotal)
      ensures forall rec :: rec in RecordSet(CursorPagination(sf.value, q, fuel).pages) ==>
                rec.fields == old(rec.fields) - {Attributes}
      ensures r.Ok? ==> forall rec :: rec in r.value ==> Attributes !in rec.fields
    {
      var client := sf.value;
      var first := client.query(q);
      if first.None? {
        return Err(QueryFailed), [];
      }
      r, calls := FollowCursor(client.queryMore, first.value, callback, fuel);
    }

    /** `query_data`: connect if there is no session, then a full pull or
        cursor pagination; a failed connect or query raises. */
    method QueryData(q: string, login: Option<Client>, ghost fuel: nat, paginate: bool := true, callback: Option<Callback> := None)
      returns (r: Result<seq<Record>>, calls: seq<Call>)
      requires paginate && Session(sf, login).Some? ==> PaginationEnds(Session(sf, login).value, q, fuel)
      requires forall rec :: rec in RecordSet(DataOutcome(Session(sf, login), q, paginate, fuel).pages) ==> allocated(rec)
      modifies this, RecordSet(DataOutcome(Session(sf, login), q, paginate, fuel).pages)
      ensures sf == Session(old(sf), login)
      ensures var e := DataOutcome(sf, q, paginate, fuel);
        && r == e.result
        && calls == (if paginate then Notify(callback, e.pages, e.callbackTotal) else [])
      ensures forall rec :: rec in RecordSet(DataOutcome(sf, q, paginate, fuel).pages) ==>
                rec.fields == old(rec.fields) - {Attributes}
      ensures r.Ok? ==> forall rec :: rec in r.value ==> Attributes !in rec.fields
    {
      var ok := EnsureConnected(login);
      if !ok {
        return Err(ConnectFailed), [];
      }
      if !paginate {
        r := QueryAllData(q);
        calls := [];
      } else {
        r, calls := QueryWithPagination(q, callback, fuel);
      }
    }

    /** `query_count`: connect if there is no session, rewrite the query into
        a count query and return the `totalSize` of its answer. */
    method QueryCount(q: string, login: Option<Client>) returns (r: Result<int>)
      modifies this
      ensures sf == Session(old(sf), login)
      ensures r == CountResult(sf, q)
    {
      var ok := EnsureConnected(login);
      if !ok {
        return Err(ConnectFailed);
      }
      var countQuery := RewriteCountQuery(q);
      if countQuery.None? {
        return Err(InvalidQueryFormat);
      }
      var result := sf.value.query(countQuery.value);
      if result.None? {
        return Err(QueryFailed);
      }
      r := Ok(TotalSize(result.value));
    }

    /** `query_in_batches`: connect if there is no session, count, then send
        one LIMIT/OFFSET query per planned batch until the plan is done or a
        batch comes back short; `sent` lists the batch queries sent. */
    method QueryInBatches(q: string, login: Option<Client>, size: int := 2000, callback: Option<Callback> := None)
      returns (r: Result<seq<Record>>, calls: seq<Call>, sent: seq<string>)
      requires forall rec :: rec in RecordSet(BatchesOutcome(Session(sf, login), q, size).pages) ==> allocated(rec)
      modifies this, RecordSet(BatchesOutcome(Session(sf, login), q, size).pages)
      ensures sf == Session(old(sf), login)
      ensures var e := BatchesOutcome(sf, q, size);
        && r == e.result
        && calls == Notify(callback, e.pages, e.callbackTotal)
        && sent == BatchQueries(q, size, e.offsets)
      ensures forall rec :: rec in RecordSet(BatchesOutcome(sf, q, size).pages) ==>
                rec.fields == old(rec.fields) - {Attributes}
      ensures r.Ok? ==> forall rec :: rec in r.value ==> Attributes !in rec.fields
    {
      var ok := EnsureConnected(login);
      if !ok {
        return Err(ConnectFailed), [], [];
      }
      var totalRecords := QueryCount(q, login);
      r, calls, sent := BatchesAfterCount(sf.value.queryAll, q, size, totalRecords, callback);
    }
  }

  /** The loop of `_query_with_pagination` from the first page on: strip and
      collect each page's records, report the batch, and move on while the
      page is not done and the next page can be fetched. */
  method FollowCursor(more: string -> Option<Page>, first: Page, callback: Option<Callback>, ghost fuel: nat)
    returns (r: Result<seq<Record>>, calls: seq<Call>)
    requires CursorEnds(first, more, fuel)
    requires forall rec :: rec in RecordSet(Cursor(first, more, fuel)) ==> allocated(rec)
    modifies RecordSet(Cursor(first, more, fuel))
    ensures r == Ok(Flatten(Cursor(first, more, fuel)))
    ensures calls == Notify(callback, Cursor(first, more, fuel), TotalSize(first))
    ensures forall rec :: rec in RecordSet(Cursor(first, more, fuel)) ==>
              rec.fields == old(rec.fields) - {Attributes}
    ensures forall rec :: rec in r.value ==> Attributes !in rec.fields
  {
    var totalSize := TotalSize(first);
    ghost var pages := Cursor(first, more, fuel);
    ghost var footprint := RecordSet(pages);
    CursorStart(first, more, fuel);
    var result := first;
    var allRecords: seq<Record> := [];
    var batchNum := 0;
    calls := [];
    while true
      invariant 0 <= batchNum < |pages|
      invariant result == pages[batchNum]
      invariant allRecords == Flatten(pages[..batchNum])
      invariant calls == Notify(callback, pages[..batchNum], totalSize)
      invariant forall rec :: rec in allRecords ==> rec in footprint
      invariant forall rec :: rec in footprint && old(allocated(rec)) ==>
                  rec.fields - {Attributes} == old(rec.fields) - {Attributes}
      invariant forall rec :: rec in allRecords ==> Attributes !in rec.fields
      decreases |pages| - batchNum
    {
      CursorAt(first, more, fuel, batchNum);
      PrefixExtend(pages, batchNum);
      PageRecordsIncluded(pages, batchNum);
      FlattenAppend(pages[..batchNum], [result]);
      assert Flatten([result]) == result.records;
      ghost var reported := pages[..batchNum];
      batchNum := batchNum + 1;
      var batch := StripBatch(result.records, footprint, allRecords);
      allRecords := allRecords + batch;
      calls := Report(callback, batch, batchNum, totalSize, calls, reported, result);
      if Done(result) {
        break;
      }
      var next := NextPage(result, more);
      if next.None? {
        break;
      }
      result := next.value;
    }
    assert pages[..batchNum] == pages;
    StrippedAll(footprint, allRecords);
    r := Ok(allRecords);
  }

  lemma BatchQueriesAppend(q: string, size: int, offsets: seq<int>, offset: int)
    ensures BatchQueries(q, size, offsets + [offset]) == BatchQueries(q, size, offsets) + [BatchQuery(q, size, offset)]
  {
    assert BatchQueries(q, size, offsets + [offset])[|offsets|] == BatchQuery(q, size, offset);
  }

  /** `query_in_batches` once the count query has had the outcome `count`:
      a failed count raises, a count of zero gives no records, a zero batch
      size raises, and otherwise the planned batches are fetched. */
  method BatchesAfterCount(queryAll: string -> Option<Page>, q: string, size: int, count: Result<int>, callback: Option<Callback>)
    returns (r: Result<seq<Record>>, calls: seq<Call>, sent: seq<string>)
    requires forall rec :: rec in RecordSet(AfterCount(queryAll, q, size, count).pages) ==> allocated(rec)
    modifies RecordSet(AfterCount(queryAll, q, size, count).pages)
    ensures var e := AfterCount(queryAll, q, size, count);
      && r == e.result
      && calls == Notify(callback, e.pages, e.callbackTotal)
      && sent == BatchQueries(q, size, e.offsets)
    ensures forall rec :: rec in RecordSet(AfterCount(queryAll, q, size, count).pages) ==>
              rec.fields == old(rec.fields) - {Attributes}
    ensures r.Ok? ==> forall rec :: rec in r.value ==> Attributes !in rec.fields
  {
    if count.Err? {
      return Err(count.failure), [], [];
    }
    var total := count.value;
    if total == 0 {
      return Ok([]), [], [];
    }
    if size == 0 {
      return Err(ZeroBatchSize), [], [];
    }
    var totalBatches := FloorDiv(total + size - 1, size);
    r, calls, sent := FetchBatches(queryAll, q, size, totalBatches, callback);
  }

  /** The batch loop of `query_in_batches`: batch k asks for offset k*size;
      a failed batch query raises, a short batch ends the loop. */
  method FetchBatches(queryAll: string -> Option<Page>, q: string, size: int, totalBatches: int, callback: Option<Callback>)
    returns (r: Result<seq<Record>>, calls: seq<Call>, sent: seq<string>)
    requires forall rec :: rec in RecordSet(RunBatches(BatchAnswers(queryAll, q, size), size, 0, totalBatches).pages) ==> allocated(rec)
    modifies RecordSet(RunBatches(BatchAnswers(queryAll, q, size), size, 0, totalBatches).pages)
    ensures var run := RunBatches(BatchAnswers(queryAll, q, size), size, 0, totalBatches);
      && r == (if run.aborted then Err(QueryFailed) else Ok(Flatten(run.pages)))
      && calls == Notify(callback, run.pages, totalBatches)
      && sent == BatchQueries(q, size, run.offsets)
    ensures forall rec ::
              rec in RecordSet(RunBatches(BatchAnswers(queryAll, q, size), size, 0, totalBatches).pages) ==>
              rec.fields == old(rec.fields) - {Attributes}
    ensures r.Ok? ==> forall rec :: rec in r.value ==> Attributes !in rec.fields
  {
    ghost var ask := BatchAnswers(queryAll, q, size);
    ghost var run := RunBatches(ask, size, 0, totalBatches);
    RunBatchesSizes(ask, size, totalBatches);
    ghost var pages := run.pages;
    ghost var offsets := run.offsets;
    ghost var footprint := RecordSet(pages);
    var allRecords: seq<Record> := [];
    calls := [];
    sent := [];
    var batchNum := 0;
    while batchNum < totalBatches
      invariant 0 <= batchNum <= |pages|
      invariant batchNum < |offsets| || batchNum >= totalBatches
      invariant sent == BatchQueries(q, size, offsets[..batchNum])
      invariant allRecords == Flatten(pages[..batchNum])
      invariant calls == Notify(callback, pages[..batchNum], totalBatches)
      invariant forall rec :: rec in footprint && old(allocated(rec)) ==>
                  rec.fields - {Attributes} == old(rec.fields) - {Attributes}
      invariant forall rec :: rec in allRecords ==> rec in footprint
      invariant forall rec :: rec in allRecords ==> Attributes !in rec.fields
      decreases totalBatches - batchNum
    {
      RunBatchAt(ask, size, totalBatches, batchNum);
      var offset := batchNum * size;
      var batchQuery := BatchQuery(q, size, offset);
      BatchQueriesAppend(q, size, offsets[..batchNum], offset);
      PrefixExtend(offsets, batchNum);
      sent := sent + [batchQuery];
      var result := queryAll(batchQuery);
      if result.None? {
        assert offsets[..batchNum + 1] == offsets;
        assert pages[..batchNum] == pages;
        StrippedAll(footprint, allRecords);
        return Err(QueryFailed), calls, sent;
      }
      ghost var page := result.value;
      PrefixExtend(pages, batchNum);
      PageRecordsIncluded(pages, batchNum);
      var batch := StripBatch(result.value.records, footprint, allRecords);
      FlattenAppend(pages[..batchNum], [page]);
      assert Flatten([page]) == page.records;
      allRecords := allRecords + batch;
      calls := Report(callback, batch, batchNum + 1, totalBatches, calls, pages[..batchNum], page);
      if |batch| < size {
        assert pages[..batchNum + 1] == pages && offsets[..batchNum + 1] == offsets;
        StrippedAll(footprint, allRecords);
        return Ok(allRecords), calls, sent;
      }
      batchNum := batchNum + 1;
    }
    assert pages[..batchNum] == pages && offsets[..batchNum] == offsets;
    StrippedAll(footprint, allRecords);
    r := Ok(allRecords);
  }

  /** Strips the attributes from a batch of records drawn from `footprint`,
      keeping the facts the batch loop relies on: popping the attributes once
      more changes no record of `footprint` beyond that, and neither the
      batch nor the records stripped before it (`done`) keep any. */
  method StripBatch(records: seq<Record>, ghost footprint: set<Record>, ghost done: seq<Record>)
    returns (batch: seq<Record>)
    requires forall rec :: rec in records ==> rec in footprint
    requires forall rec :: rec in done ==> Attributes !in rec.fields
    modifies set rec | rec in records
    ensures batch == records
    ensures forall rec :: rec in footprint && old(allocated(rec)) ==>
              rec.fields - {Attributes} == old(rec.fields) - {Attributes}
    ensures forall rec :: rec in done + batch ==> Attributes !in rec.fields
  {
    batch := StripAttributes(records);
  }

  /** Hands the records of the next page to the callback, when there is
      one, numbering it after the pages already reported. */
  method Report(callback: Option<Callback>, batch: seq<Record>, number: int, total: int, calls: seq<Call>,
                ghost pages: seq<Page>, ghost page: Page)
    returns (reported: seq<Call>)
    requires calls == Notify(callback, pages, total)
    requires batch == page.records && number == |pages| + 1
    ensures reported == Notify(callback, pages + [page], total)
  {
    reported := calls;
    if callback.Some? {
      var raised := callback.value.raises(batch, number, total);
      NotifyAppend(callback, pages, page, total);
      reported := reported + [Call(batch, number, total, raised)];
    }
  }

  /** Records whose attributes were popped at least once, and no other key
      touched, have had exactly the attributes removed. */
  twostate lemma StrippedAll(new footprint: set<Record>, new records: seq<Record>)
    requires footprint == set rec | rec in records
    requires forall rec :: rec in footprint && old(allocated(rec)) ==>
               rec.fields - {Attributes} == old(rec.fields) - {Attributes}
    requires forall rec :: rec in records ==> Attributes !in rec.fields
    ensures forall rec :: rec in footprint && old(allocated(rec)) ==>
              rec.fields == old(rec.fields) - {Attributes}
  {
    forall rec | rec in footprint && old(allocated(rec))
      ensures rec.fields == old(rec.fields) - {Attributes}
    {
      assert rec.fields - {Attributes} == rec.fields;
    }
  }
}
