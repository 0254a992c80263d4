/** The two textual query rewrites of the connector: the count query built by
    `query_count` and the LIMIT/OFFSET batch query built by `query_in_batches`.
    Keywords are found by plain case-insensitive substring search, exactly as
    the code does it: a keyword inside a literal or an identifier counts too. */
module Soql {
  import opened Common
  import opened Text

  const CountPrefix: string := "SELECT COUNT() "

  /** The clauses cut off the count query, in the order the loop tries them. */
  const TruncatedClauses: seq<string> := ["ORDER BY", "LIMIT", "OFFSET", "GROUP BY", "HAVING"]

  const OrderBy: string := "ORDER BY"

  /** What every well-formed count query starts with, once upper-cased. */
  const CountHead: string := "SELECT COUNT() FROM"

  // ---- count query ----

  /** One turn of the clause loop: cut `cq` just before the first
      case-insensitive occurrence of `clause`, when there is one. */
  function CutAt(cq: string, clause: string): (r: string)
    requires |clause| > 0
    ensures r <= cq
    ensures !Contains(Upper(r), clause)
    ensures !Contains(Upper(cq), clause) ==> r == cq
    ensures Contains(Upper(cq), clause) ==>
              MatchAt(Upper(cq), clause, |r|) && forall j :: 0 <= j < |r| ==> !MatchAt(Upper(cq), clause, j)
  {
    var u := Upper(cq);
    if Contains(u, clause) then
      var i := Find(u, clause);
      UpperSlice(cq, 0, i);
      NoMatchBeforeFirst(u, clause, i);
      cq[..i]
    else cq
  }

  /** The whole clause loop: cut at each clause of `clauses` in turn. */
  function CutAtAll(cq: string, clauses: seq<string>): (r: string)
    requires forall c :: c in clauses ==> |c| > 0
    ensures r <= cq
    ensures forall c :: c in clauses ==> !Contains(Upper(r), c)
    ensures r == cq || exists c :: c in clauses && MatchAt(Upper(cq), c, |r|)
  {
    if clauses == [] then cq
    else
      var m := CutAt(cq, clauses[0]);
      var r := CutAtAll(m, clauses[1..]);
      UpperSlice(m, 0, |r|);
      assert r == m[..|r|];
      UpperSlice(r, 0, |r|);
      NoMatchInPrefix(Upper(m), clauses[0], Upper(r));
      CutStep(cq, m, r, clauses);
      r
  }

  /** A cut at a clause occurrence followed by cuts at clause occurrences of
      what is left lands on a clause occurrence of the original text. */
  lemma CutStep(cq: string, m: string, r: string, clauses: seq<string>)
    requires |clauses| > 0 && m <= cq && r <= m
    requires m == cq || MatchAt(Upper(cq), clauses[0], |m|)
    requires r == m || exists c :: c in clauses[1..] && MatchAt(Upper(m), c, |r|)
    ensures r == cq || exists c :: c in clauses && MatchAt(Upper(cq), c, |r|)
  {
    if r == m {
      if m != cq {
        assert clauses[0] in clauses;
      }
    } else {
      var c :| c in clauses[1..] && MatchAt(Upper(m), c, |r|);
      assert c in clauses;
      assert m == cq[..|m|];
      UpperSlice(cq, 0, |m|);
      MatchInPrefix(Upper(cq), c, |m|, |r|);
    }
  }

  /** The count query `query_count` sends, or None where it raises ValueError
      (the upper-cased query lacks SELECT or lacks FROM). */
  function CountQuery(q: string): Option<string>
  {
    var u := Upper(q);
    if Contains(u, "SELECT") && Contains(u, "FROM") then
      Some(CutAtAll(CountPrefix + q[Find(u, "FROM")..], TruncatedClauses))
    else None
  }

  /** The rewrite as `query_count` performs it: reassign the query once per clause. */
  method RewriteCountQuery(q: string) returns (r: Option<string>)
    ensures r == CountQuery(q)
  {
    var u := Upper(q);
    if Contains(u, "SELECT") && Contains(u, "FROM") {
      var fromIndex := Find(u, "FROM");
      var countQuery := CountPrefix + q[fromIndex..];
      for k := 0 to |TruncatedClauses|
        invariant CutAtAll(countQuery, TruncatedClauses[k..])
               == CutAtAll(CountPrefix + q[fromIndex..], TruncatedClauses)
      {
        var clause := TruncatedClauses[k];
        assert TruncatedClauses[k..][1..] == TruncatedClauses[k + 1..];
        if Contains(Upper(countQuery), clause) {
          var clauseIndex := Find(Upper(countQuery), clause);
          countQuery := countQuery[..clauseIndex];
        }
      }
      r := Some(countQuery);
    } else {
      r := None;
    }
  }

  /** No truncated clause can start inside the head "SELECT COUNT() FROM". */
  lemma NoClauseInHead(t: string, c: string)
    requires |t| >= |CountHead| && t[..|CountHead|] == CountHead && c in TruncatedClauses
    ensures forall j :: 0 <= j < |CountHead| ==> !MatchAt(t, c, j)
  {
    forall j | 0 <= j < |CountHead|
      ensures !MatchAt(t, c, j)
    {
      HeadMismatch(t, c, j);
    }
  }

  /** Position `j` of the head disagrees with the first or the second letter of `c`. */
  lemma HeadMismatch(t: string, c: string, j: nat)
    requires |t| >= |CountHead| && t[..|CountHead|] == CountHead && c in TruncatedClauses
    requires j < |CountHead|
    ensures t[j] != c[0] || (j + 1 < |t| && t[j + 1] != c[1])
  {
    assert t[j] == CountHead[j];
    if j + 1 < |CountHead| {
      assert t[j + 1] == CountHead[j + 1];
    }
  }

  /** The clause loop never cuts into the head of a count query. */
  lemma {:induction false} CutAtAllKeepsHead(cq: string, clauses: seq<string>)
    requires |cq| >= |CountHead| && Upper(cq)[..|CountHead|] == CountHead
    requires forall c :: c in clauses ==> c in TruncatedClauses
    ensures |CutAtAll(cq, clauses)| >= |CountHead|
  {
    if clauses != [] {
      var c := clauses[0];
      assert c in clauses;
      var u := Upper(cq);
      var cut := CutAt(cq, c);
      if Contains(u, c) {
        NoClauseInHead(u, c);
        assert |cut| == Find(u, c) >= |CountHead|;
        UpperSlice(cq, 0, |cut|);
        assert Upper(cut)[..|CountHead|] == u[..|CountHead|];
      }
      CutAtAllKeepsHead(cut, clauses[1..]);
    }
  }

  /** The count query built around the first FROM starts, upper-cased, with the head. */
  lemma CountQueryHead(q: string, f: nat)
    requires MatchAt(Upper(q), "FROM", f)
    ensures |CountPrefix + q[f..]| >= |CountHead|
    ensures Upper(CountPrefix + q[f..])[..|CountHead|] == CountHead
  {
    var u := Upper(q);
    UpperConcat(CountPrefix, q[f..]);
    UpperSlice(q, f, |q|);
    assert Upper(CountPrefix) == CountPrefix;
    assert u[f..f + 4] == "FROM";
    assert Upper(q[f..]) == u[f..];
    assert Upper(CountPrefix + q[f..])[..|CountHead|] == CountPrefix + u[f..f + 4];
  }

  /** `query_count` rejects exactly the queries whose upper-cased text lacks
      SELECT or FROM; otherwise its count query is "SELECT COUNT() " followed by
      a prefix of the original text taken from the first case-insensitive FROM
      (and that prefix still holds the FROM), the count query contains none of
      the truncated clauses in any letter case, and it is either the whole text
      built around the FROM or ends just before a clause occurring in that text,
      so everything before the first clause (a WHERE, say) is kept. */
  lemma CountQueryShape(q: string)
    ensures CountQuery(q).None? <==> !Contains(Upper(q), "SELECT") || !Contains(Upper(q), "FROM")
    ensures CountQuery(q).Some? ==>
      var r := CountQuery(q).value;
      var f := Find(Upper(q), "FROM");
      && |r| >= |CountPrefix| + 4
      && r[..|CountPrefix|] == CountPrefix
      && r[|CountPrefix|..] <= q[f..]
      && Upper(r[|CountPrefix|..|CountPrefix| + 4]) == "FROM"
      && forall c :: c in TruncatedClauses ==> !Contains(Upper(r), c)
    ensures CountQuery(q).Some? ==>
      var r := CountQuery(q).value;
      var cq := CountPrefix + q[Find(Upper(q), "FROM")..];
      r == cq || exists c :: c in TruncatedClauses && MatchAt(Upper(cq), c, |r|)
  {
    var u := Upper(q);
    if Contains(u, "SELECT") && Contains(u, "FROM") {
      CutFromShape(q, Find(u, "FROM"));
    }
  }

  /** The clause loop run on the count query built around a FROM at `f`. */
  lemma CutFromShape(q: string, f: nat)
    requires MatchAt(Upper(q), "FROM", f)
    ensures var r := CutAtAll(CountPrefix + q[f..], TruncatedClauses);
      && |r| >= |CountPrefix| + 4
      && r[..|CountPrefix|] == CountPrefix
      && r[|CountPrefix|..] <= q[f..]
      && Upper(r[|CountPrefix|..|CountPrefix| + 4]) == "FROM"
  {
    var cq := CountPrefix + q[f..];
    CountQueryHead(q, f);
    CutAtAllKeepsHead(cq, TruncatedClauses);
    var r := CutAtAll(cq, TruncatedClauses);
    PrefixAfterHead(q[f..], r);
    UpperSlice(q, f, f + 4);
    assert q[f..][..4] == q[f..f + 4];
  }

  /** A prefix of "SELECT COUNT() " + `t` that reaches four letters into `t`
      is that head followed by a prefix of `t` starting with `t`'s first four letters. */
  lemma PrefixAfterHead(t: string, r: string)
    requires r <= CountPrefix + t && |r| >= |CountPrefix| + 4
    ensures r[..|CountPrefix|] == CountPrefix
    ensures r[|CountPrefix|..] <= t
    ensures r[|CountPrefix|..|CountPrefix| + 4] == t[..4]
  {
    var cq := CountPrefix + t;
    assert r == cq[..|r|];
    assert r[|CountPrefix|..] == t[..|r| - |CountPrefix|];
  }

  // ---- batch query ----

  /** The clause `query_in_batches` adds for one batch. */
  function LimitOffset(size: int, offset: int): string
  {
    " LIMIT " + IntStr(size) + " OFFSET " + IntStr(offset)
  }

  /** The query for one batch: the LIMIT/OFFSET clause goes just before the
      first case-insensitive ORDER BY, or at the end when there is none. */
  function BatchQuery(q: string, size: int, offset: int): string
  {
    var u := Upper(q);
    if Contains(u, OrderBy) then
      var i := Find(u, OrderBy);
      q[..i] + LimitOffset(size, offset) + " " + q[i..]
    else
      q + LimitOffset(size, offset)
  }

  /** `i` is where the clause belongs: the first ORDER BY, or the end of the query. */
  predicate IsSplicePoint(q: string, i: nat)
  {
    || (i == |q| && !Contains(Upper(q), OrderBy))
    || (MatchAt(Upper(q), OrderBy, i) && forall j :: 0 <= j < i ==> !MatchAt(Upper(q), OrderBy, j))
  }

  /** A batch query is the original query with the LIMIT/OFFSET clause (and a
      separating blank before an ORDER BY) spliced in at the splice point: cutting
      the inserted text out gives the query back, nothing before the splice point
      is an ORDER BY, and the ORDER BY (if any) now follows the clause. */
  lemma BatchQuerySplice(q: string, size: int, offset: int, i: nat)
    requires IsSplicePoint(q, i)
    ensures var ins := LimitOffset(size, offset) + (if i < |q| then " " else "");
      var r := BatchQuery(q, size, offset);
      && |r| == |q| + |ins|
      && r[i..i + |ins|] == ins
      && r[..i] + r[i + |ins|..] == q
      && !Contains(Upper(r[..i]), OrderBy)
      && (i < |q| ==> MatchAt(Upper(r), OrderBy, i + |ins|))
  {
    var ins := LimitOffset(size, offset) + (if i < |q| then " " else "");
    var r := BatchQuery(q, size, offset);
    NoOrderByBeforeSplice(q, i);
    if i < |q| {
      SpliceBeforeOrderBy(q, size, offset, i);
      OrderByAfterSplice(q, ins, i);
    } else {
      assert r == q + ins;
      assert q[..i] == q && q[i..] == [];
    }
    assert q[..i] + q[i..] == q;
    Splice(q[..i], ins, q[i..]);
  }

  /** Nothing before the splice point is an ORDER BY. */
  lemma NoOrderByBeforeSplice(q: string, i: nat)
    requires IsSplicePoint(q, i)
    ensures i <= |q| && !Contains(Upper(q[..i]), OrderBy)
  {
    var u := Upper(q);
    if i == |q| {
      assert q[..i] == q;
    } else {
      UpperSlice(q, 0, i);
      NoMatchBeforeFirst(u, OrderBy, i);
    }
  }

  /** When an ORDER BY is the splice point, the clause and a blank go in just before it. */
  lemma SpliceBeforeOrderBy(q: string, size: int, offset: int, i: nat)
    requires i < |q| && IsSplicePoint(q, i)
    ensures BatchQuery(q, size, offset) == q[..i] + (LimitOffset(size, offset) + " ") + q[i..]
  {
    var u := Upper(q);
    assert MatchAt(u, OrderBy, i);
    assert Contains(u, OrderBy);
    assert Find(u, OrderBy) == i;
  }

  /** Text inserted just before an ORDER BY leaves that ORDER BY right after it. */
  lemma OrderByAfterSplice(q: string, ins: string, i: nat)
    requires i < |q| && MatchAt(Upper(q), OrderBy, i)
    ensures MatchAt(Upper(q[..i] + ins + q[i..]), OrderBy, i + |ins|)
  {
    var r := q[..i] + ins + q[i..];
    UpperConcat(q[..i] + ins, q[i..]);
    UpperSlice(q, i, |q|);
    assert Upper(r)[i + |ins|..] == Upper(q)[i..];
    assert Upper(r)[i + |ins|..i + |ins| + |OrderBy|] == Upper(q)[i..i + |OrderBy|];
  }

  /** Example: ORDER BY and everything after it are dropped. */
  lemma CountQueryExample()
    ensures CountQuery("select id from Account " + "order by name limit 10")
         == Some("SELECT COUNT() from Account ")
  {
    var q := "select id from Account " + "order by name limit 10";
    ExampleUpper();
    UpperConcat("select id from Account ", "order by name limit 10");
    ExampleFrom(Upper(q));
    var cq := CountPrefix + q[10..];
    ExampleCountInput(q);
    var r := "SELECT COUNT() from Account ";
    ExampleOrderByCut(cq);
    ExampleCutRest(r);
    assert TruncatedClauses[0] == OrderBy;
    assert CutAtAll(cq, TruncatedClauses) == CutAtAll(CutAt(cq, OrderBy), TruncatedClauses[1..]);
  }

  lemma ExampleCountInput(q: string)
    requires q == "select id from Account " + "order by name limit 10"
    ensures CountPrefix + q[10..] == "SELECT COUNT() from Account " + "order by name limit 10"
  {
    assert q[10..] == "from Account " + "order by name limit 10";
  }

  lemma ExampleOrderByCut(cq: string)
    requires cq == "SELECT COUNT() from Account " + "order by name limit 10"
    ensures CutAt(cq, OrderBy) == "SELECT COUNT() from Account "
  {
    ExampleUpper();
    UpperConcat("SELECT COUNT() from Account ", "order by name limit 10");
    ExampleOrderBy(Upper(cq));
  }

  lemma ExampleCutRest(r: string)
    requires r == "SELECT COUNT() from Account "
    ensures CutAtAll(r, TruncatedClauses[1..]) == r
  {
    ExampleUpperCount();
    ExampleNoLimit(Upper(r));
    ExampleNoOffset(Upper(r));
    ExampleNoGroupOrHaving(Upper(r));
    assert TruncatedClauses[1..] == ["LIMIT", "OFFSET", "GROUP BY", "HAVING"];
    assert CutAtAll(r, ["HAVING"]) == r;
    assert CutAtAll(r, ["GROUP BY", "HAVING"]) == r;
    assert CutAtAll(r, ["OFFSET", "GROUP BY", "HAVING"]) == r;
  }

  lemma ExampleUpper()
    ensures Upper("select id from Account ") == "SELECT ID FROM ACCOUNT "
    ensures Upper("order by name limit 10") == "ORDER BY NAME LIMIT 10"
    ensures Upper("SELECT COUNT() from Account ") == "SELECT COUNT() FROM ACCOUNT "
  {
    ExampleUpperSelect();
    ExampleUpperOrder();
    ExampleUpperCount();
  }

  lemma ExampleUpperSelect()
    ensures Upper("select id from Account ") == "SELECT ID FROM ACCOUNT "
  {
  }

  lemma ExampleUpperOrder()
    ensures Upper("order by name limit 10") == "ORDER BY NAME LIMIT 10"
  {
  }

  lemma ExampleUpperCount()
    ensures Upper("SELECT COUNT() from Account ") == "SELECT COUNT() FROM ACCOUNT "
  {
  }

  lemma ExampleFrom(u: string)
    requires u == "SELECT ID FROM ACCOUNT " + "ORDER BY NAME LIMIT 10"
    ensures Contains(u, "SELECT") && Contains(u, "FROM") && Find(u, "FROM") == 10
  {
    MatchAtByLetters(u, "SELECT", 0);
    MatchAtByLetters(u, "FROM", 10);
    NoMatchWithoutFirstLetter(u, "FROM", 0, 10);
  }

  lemma ExampleOrderBy(cu: string)
    requires cu == "SELECT COUNT() FROM ACCOUNT " + "ORDER BY NAME LIMIT 10"
    ensures Contains(cu, OrderBy) && Find(cu, OrderBy) == 28
  {
    assert cu[..28] == "SELECT COUNT() FROM ACCOUNT ";
    assert cu[28..36] == OrderBy;
    assert MatchAt(cu, OrderBy, 28);
    ExampleNoOrderByBefore(cu);
  }

  lemma ExampleNoOrderByBefore(t: string)
    requires |t| >= 28 && t[..28] == "SELECT COUNT() FROM ACCOUNT "
    ensures forall j :: 0 <= j < 28 ==> !MatchAt(t, OrderBy, j)
  {
    NoMatchWithoutFirstLetter(t, OrderBy, 0, 8);
    NoMatchWithoutFirstLetter(t, OrderBy, 9, 17);
    NoMatchWithoutFirstLetter(t, OrderBy, 18, 23);
    NoMatchWithoutFirstLetter(t, OrderBy, 24, 28);
    NoMatchWithoutSecondLetter(t, OrderBy, 8);
    NoMatchWithoutSecondLetter(t, OrderBy, 17);
    NoMatchWithoutSecondLetter(t, OrderBy, 23);
  }

  lemma ExampleNoLimit(ru: string)
    requires ru == "SELECT COUNT() FROM ACCOUNT "
    ensures !Contains(ru, "LIMIT")
  {
    NoMatchWithoutFirstLetter(ru, "LIMIT", 0, 2);
    NoMatchWithoutFirstLetter(ru, "LIMIT", 3, 28);
    NoMatchWithoutSecondLetter(ru, "LIMIT", 2);
  }

  lemma ExampleNoOffset(ru: string)
    requires ru == "SELECT COUNT() FROM ACCOUNT "
    ensures !Contains(ru, "OFFSET")
  {
    NoMatchWithoutFirstLetter(ru, "OFFSET", 0, 8);
    NoMatchWithoutFirstLetter(ru, "OFFSET", 9, 17);
    NoMatchWithoutFirstLetter(ru, "OFFSET", 18, 23);
    NoMatchWithoutFirstLetter(ru, "OFFSET", 24, 28);
    NoMatchWithoutSecondLetter(ru, "OFFSET", 8);
    NoMatchWithoutSecondLetter(ru, "OFFSET", 17);
    NoMatchWithoutSecondLetter(ru, "OFFSET", 23);
  }

  lemma ExampleNoGroupOrHaving(ru: string)
    requires ru == "SELECT COUNT() FROM ACCOUNT "
    ensures !Contains(ru, "GROUP BY") && !Contains(ru, "HAVING")
  {
    NoMatchWithoutFirstLetter(ru, "GROUP BY", 0, 28);
    NoMatchWithoutFirstLetter(ru, "HAVING", 0, 28);
  }
}
