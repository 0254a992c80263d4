/** What the Salesforce client hands back, seen from the connector: records as
    mutable dictionaries, result pages, the client's three query calls, and the
    caller's batch callback. */
module Remote {
  import opened Common

  /** A field value of a record; the connector never looks inside one. */
  datatype Value = Str(s: string) | Number(n: int) | Flag(b: bool) | Null | Nested(keys: seq<string>)

  /** The metadata key the connector removes from every record. */
  const Attributes: string := "attributes"

  /** A record as the client returns it: a dictionary that the connector edits in place. */
  class Record {
    var fields: map<string, Value>

    /** A record holding the given keys and values. */
    constructor(fields: map<string, Value>)
      ensures this.fields == fields
    {
      this.fields := fields;
    }

    /** `record.pop(key, None)`: remove `key` and return what it held, if anything. */
    method Pop(key: string) returns (v: Option<Value>)
      modifies this
      ensures fields == old(fields) - {key}
      ensures v == if key in old(fields) then Some(old(fields)[key]) else None
    {
      v := if key in fields then Some(fields[key]) else None;
      fields := fields - {key};
    }
  }

  /** A result page: `{records, totalSize, done, nextRecordsUrl}`; a key the
      remote left out is None. */
  datatype Page = Page(
    records: seq<Record>,
    totalSize: Option<int>,
    done: Option<bool>,
    nextRecordsUrl: Option<string>)

  /** The session handle (`self.sf`): `query`, `query_all` and `query_more`
      (the latter given a next-records URL). None stands for a call that raised. */
  datatype Client = Client(
    query: string -> Option<Page>,
    queryAll: string -> Option<Page>,
    queryMore: string -> Option<Page>)

  /** A batch callback, reduced to whether a call with these arguments raises. */
  datatype Callback = Callback(raises: (seq<Record>, int, int) -> bool)

  /** One invocation of the batch callback, and whether it raised. */
  datatype Call = Call(batch: seq<Record>, batchNumber: int, total: int, raised: bool)

  /** The loop every strategy runs over a page's records: pop `attributes`
      from each record and append the record to the batch. */
  method StripAttributes(records: seq<Record>) returns (batch: seq<Record>)
    modifies set r | r in records
    ensures batch == records
    ensures forall r :: r in records ==> r.fields == old(r.fields) - {Attributes}
  {
    batch := [];
    for i := 0 to |records|
      invariant batch == records[..i]
      invariant forall r :: r in records[..i] ==> r.fields == old(r.fields) - {Attributes}
      invariant forall r :: r in records && r !in records[..i] ==> r.fields == old(r.fields)
    {
      var record := records[i];
      var _ := record.Pop(Attributes);
      assert records[..i + 1] == records[..i] + [record];
      batch := batch + [record];
    }
    assert records[..|records|] == records;
  }
}
