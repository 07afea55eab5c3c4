/** Merging the per-source tables of one query. Sources are queried one at a
    time, in order; the first source whose reply fails ends the query with
    that error and no partial table, otherwise the tables are concatenated
    in source order. */
module Tables {
  import opened Values
  import opened Rows

  /** The per-source tables joined in order (`DataFrame.append` with
      `ignore_index=True`, repeated). */
  function Concat(tables: seq<seq<Row>>): seq<Row>
  {
    if tables == [] then [] else Concat(tables[..|tables| - 1]) + tables[|tables| - 1]
  }

  function TotalLength(tables: seq<seq<Row>>): nat
  {
    if tables == [] then 0 else TotalLength(tables[..|tables| - 1]) + |tables[|tables| - 1]|
  }

  lemma {:induction false} ConcatLength(tables: seq<seq<Row>>)
    ensures |Concat(tables)| == TotalLength(tables)
  {
    if tables != [] {
      ConcatLength(tables[..|tables| - 1]);
    }
  }

  /** Concatenation neither adds nor drops rows: a row is in the result
      exactly when it is in one of the per-source tables. */
  lemma {:induction false} ConcatMember(tables: seq<seq<Row>>, row: Row)
    ensures row in Concat(tables) <==> exists i :: 0 <= i < |tables| && row in tables[i]
  {
    if tables != [] {
      var n := |tables| - 1;
      ConcatMember(tables[..n], row);
      if exists i :: 0 <= i < |tables| && row in tables[i] {
        var i :| 0 <= i < |tables| && row in tables[i];
        if i < n {
          assert tables[..n][i] == tables[i];
        }
      }
    }
  }

  predicate AllSucceed(parts: seq<Result<seq<Row>>>)
  {
    forall i :: 0 <= i < |parts| ==> parts[i].Success?
  }

  /** `k` is the first source whose reply failed. */
  predicate FirstFailureAt(parts: seq<Result<seq<Row>>>, k: nat)
  {
    k < |parts| && parts[k].Failure? && AllSucceed(parts[..k])
  }

  function TablesOf(parts: seq<Result<seq<Row>>>): (tables: seq<seq<Row>>)
    requires AllSucceed(parts)
    ensures |tables| == |parts|
    ensures forall i :: 0 <= i < |parts| ==> tables[i] == parts[i].value
  {
    seq(|parts|, i requires 0 <= i < |parts| => parts[i].value)
  }

  /** The outcome of a query from its per-source outcomes, processed left to
      right as the query loop does. */
  function Merge(parts: seq<Result<seq<Row>>>): Result<seq<Row>>
  {
    if parts == [] then Success([])
    else
      match Merge(parts[..|parts| - 1])
      case Failure(e) => Failure(e)
      case Success(acc) =>
        match parts[|parts| - 1]
        case Failure(e) => Failure(e)
        case Success(t) => Success(acc + t)
  }

  /** One more successful source appends its table to the accumulated one. */
  lemma MergeStep(parts: seq<Result<seq<Row>>>, i: nat, table: seq<Row>)
    requires i < |parts| && AllSucceed(parts[..i]) && Merge(parts[..i]) == Success(table) && parts[i].Success?
    ensures AllSucceed(parts[..i + 1])
    ensures Merge(parts[..i + 1]) == Success(table + parts[i].value)
  {
    assert parts[..i + 1] == parts[..i] + [parts[i]];
  }

  /** Once a prefix of the sources has failed, later sources change nothing. */
  lemma {:induction false} MergeFailureSticks(parts: seq<Result<seq<Row>>>, k: nat)
    requires k <= |parts| && Merge(parts[..k]).Failure?
    ensures Merge(parts) == Merge(parts[..k])
  {
    if k < |parts| {
      var n := |parts| - 1;
      assert parts[..n][..k] == parts[..k];
      MergeFailureSticks(parts[..n], k);
    } else {
      assert parts[..k] == parts;
    }
  }

  /** When every source succeeds, the query returns the concatenation of
      their tables, in source order. */
  lemma {:induction false} MergeAllSucceed(parts: seq<Result<seq<Row>>>)
    requires AllSucceed(parts)
    ensures Merge(parts) == Success(Concat(TablesOf(parts)))
  {
    if parts != [] {
      var n := |parts| - 1;
      MergeAllSucceed(parts[..n]);
      assert TablesOf(parts)[..n] == TablesOf(parts[..n]);
    }
  }

  /** When source `k` is the first to fail, the query fails with its error:
      nothing of the earlier tables is returned. */
  lemma {:induction false} MergeFirstFailure(parts: seq<Result<seq<Row>>>, k: nat)
    requires FirstFailureAt(parts, k)
    ensures Merge(parts) == Failure(parts[k].error)
  {
    MergeAllSucceed(parts[..k]);
    assert parts[..k + 1][..k] == parts[..k];
    MergeFailureSticks(parts, k + 1);
  }

  /** A query that does not succeed everywhere has a first failing source. */
  lemma {:induction false} FirstFailure(parts: seq<Result<seq<Row>>>) returns (k: nat)
    requires !AllSucceed(parts)
    ensures FirstFailureAt(parts, k)
  {
    if parts[0].Failure? {
      k := 0;
    } else {
      var j := FirstFailure(parts[1..]);
      k := j + 1;
      assert parts[..k] == [parts[0]] + parts[1..][..j];
    }
  }

  /** A query succeeds exactly when every source succeeds; its row count is
      then the sum of the per-source row counts. */
  lemma MergeSucceeds(parts: seq<Result<seq<Row>>>)
    ensures Merge(parts).Success? <==> AllSucceed(parts)
    ensures AllSucceed(parts) ==> |Merge(parts).value| == TotalLength(TablesOf(parts))
  {
    if AllSucceed(parts) {
      MergeAllSucceed(parts);
      ConcatLength(TablesOf(parts));
    } else {
      var k := FirstFailure(parts);
      MergeFirstFailure(parts, k);
    }
  }

  /** The rows of a successful query are exactly the rows of its
      per-source tables. */
  lemma MergeMember(parts: seq<Result<seq<Row>>>, row: Row)
    requires Merge(parts).Success?
    ensures AllSucceed(parts)
    ensures row in Merge(parts).value <==> exists i :: 0 <= i < |parts| && row in parts[i].value
  {
  }

  /** How many requests a query sends: one per source up to and including
      the first that fails. */
  function Attempts(parts: seq<Result<seq<Row>>>): (n: nat)
    ensures n <= |parts|
  {
    if parts == [] then 0
    else if parts[0].Failure? then 1
    else 1 + Attempts(parts[1..])
  }

  lemma {:induction false} AttemptsAllSucceed(parts: seq<Result<seq<Row>>>)
    requires AllSucceed(parts)
    ensures Attempts(parts) == |parts|
  {
    if parts != [] {
      AttemptsAllSucceed(parts[1..]);
    }
  }

  lemma {:induction false} AttemptsFirstFailure(parts: seq<Result<seq<Row>>>, k: nat)
    requires FirstFailureAt(parts, k)
    ensures Attempts(parts) == k + 1
  {
    if k > 0 {
      assert parts[1..][..k - 1] == parts[..k][1..];
      AttemptsFirstFailure(parts[1..], k - 1);
    }
  }
}
