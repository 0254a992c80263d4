/** Optional values and the error outcomes of the connector's public calls. */
module Common {

  datatype Option<+T> = None | Some(value: T)
  {
    /** `d.get(key, default)`: the value when present, otherwise the default. */
    function GetOr(default: T): T
    {
      match this
      case Some(v) => v
      case None => default
    }
  }

  /** What a public call raises, reduced to its cause. */
  datatype Failure =
    | ConnectFailed        // connect(): secret lookup or login raised
    | QueryFailed          // query / query_all raised on the remote side
    | InvalidQueryFormat   // query_count: ValueError("Invalid SOQL query format")
    | ZeroBatchSize        // query_in_batches: ZeroDivisionError from `// batch_size`

  datatype Result<+T> = Ok(value: T) | Err(failure: Failure)

  /** Taking one more element of a sequence appends that element. */
  lemma PrefixExtend<T>(s: seq<T>, i: nat)
    requires i < |s|
    ensures s[..i + 1] == s[..i] + [s[i]]
  {
  }

  /** Cutting the inserted part out of `a + ins + b` gives `a + b` back. */
  lemma Splice<T>(a: seq<T>, ins: seq<T>, b: seq<T>)
    ensures var r := a + ins + b;
      && |r| == |a| + |ins| + |b|
      && r[..|a|] == a
      && r[|a|..|a| + |ins|] == ins
      && r[..|a|] + r[|a| + |ins|..] == a + b
  {
    var r := a + ins + b;
    assert r[|a| + |ins|..] == b;
  }
}
