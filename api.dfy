/** `fx_api/api.py`: the second client. Same constructor as the first; each
    query sends one request per source currency, fails on the first error
    status, reshapes each reply with the pandas pipeline, appends the
    per-source tables, and finally sorts the whole table by (date, source,
    target) and renumbers its index. */
module Api {
  import opened Values
  import opened Dates
  import opened Transport
  import opened Rows
  import opened Tables
  import opened Ordering
  import opened Reshape
  import opened Frames
  import FxApi

  /** The `DataFrame` a query returns: index labels and rows. */
  datatype Table = Table(index: seq<int>, rows: seq<Row>)

  /** What every successful query returns for the concatenated per-source
      rows: the same rows, sorted by (date, source, target), under the dense
      index 0..n-1. */
  predicate SortedReindexed(t: Table, rows: seq<Row>)
  {
    Sorted(t.rows) && multiset(t.rows) == multiset(rows) && t.index == Dense(|t.rows|)
  }

  /** One source's table from a `/latest` or `/{date}` reply:
      `raise_for_status` turns an error status into `HTTPError`, and the
      reshape may raise in its turn. */
  function DayPart(reply: Reply<DayBody>): Result<seq<Row>>
  {
    match reply
    case Received(b) => ReshapeDay(b)
    case ErrorStatus(code) => Failure(HTTPError(code))
  }

  /** One source's table from a `/history` reply. */
  function HistoryPart(reply: Reply<RangeBody>): Result<seq<Row>>
  {
    match reply
    case Received(b) => ReshapeHistory(b)
    case ErrorStatus(code) => Failure(HTTPError(code))
  }

  function DayParts(requests: seq<Request>, fetch: Request -> Reply<DayBody>): (parts: seq<Result<seq<Row>>>)
    ensures |parts| == |requests|
    ensures forall i :: 0 <= i < |requests| ==> parts[i] == DayPart(fetch(requests[i]))
  {
    seq(|requests|, i requires 0 <= i < |requests| => DayPart(fetch(requests[i])))
  }

  function HistoryParts(requests: seq<Request>, fetch: Request -> Reply<RangeBody>): (parts: seq<Result<seq<Row>>>)
    ensures |parts| == |requests|
    ensures forall i :: 0 <= i < |requests| ==> parts[i] == HistoryPart(fetch(requests[i]))
  {
    seq(|requests|, i requires 0 <= i < |requests| => HistoryPart(fetch(requests[i])))
  }

  /** The end of every query: sort the accumulated table in place, then
      renumber its index in place. */
  method SortAndReindex(table: seq<Row>) returns (t: Table)
    ensures SortedReindexed(t, table)
  {
    var frame := new DataFrame(table);
    frame.SortValues();
    frame.ResetIndex();
    t := Table(frame.index[..], frame.rows[..]);
  }

  /** The end of a query: an error is raised as it is; the appended table
      is sorted and renumbered. */
  method Finish(collected: Result<seq<Row>>) returns (r: Result<Table>)
    ensures collected.Failure? ==> r == Failure(collected.error)
    ensures collected.Success? ==> r.Success? && SortedReindexed(r.value, collected.value)
  {
    match collected
    case Failure(e) =>
      r := Failure(e);
    case Success(table) =>
      var t := SortAndReindex(table);
      r := Success(t);
  }

  /** The client of `fx_api/api.py`. */
  class FX {
    var sourceCurrency: seq<string>
    var targetCurrency: Value

    constructor (c: FxApi.Currencies)
      ensures sourceCurrency == c.source && targetCurrency == c.target
    {
      sourceCurrency := c.source;
      targetCurrency := c.target;
    }

    /** `FX(source_currency, target_currency)`: the same validation and
        normalisation as the first client. */
    static method Create(source: Value, target: Value) returns (r: Result<FX>)
      ensures FxApi.Normalise(source, target).Failure? ==> r == Failure(FxApi.Normalise(source, target).error)
      ensures FxApi.Normalise(source, target).Success? ==>
        r.Success? && fresh(r.value) &&
        r.value.sourceCurrency == FxApi.Normalise(source, target).value.source &&
        r.value.targetCurrency == FxApi.Normalise(source, target).value.target
    {
      match FxApi.Normalise(source, target)
      case Failure(e) =>
        r := Failure(e);
      case Success(c) =>
        var fx := new FX(c);
        r := Success(fx);
    }

    /** The request loop shared by `get_FX_latest` and `get_FX_date`: the
        reshaped per-source tables appended in source order, up to the first
        error status. */
    method CollectDays(endpoint: Endpoint, fetch: Request -> Reply<DayBody>)
      returns (collected: Result<seq<Row>>, issued: seq<Request>)
      ensures var requests := RequestsFor(endpoint, sourceCurrency, targetCurrency);
        var parts := DayParts(requests, fetch);
        collected == Merge(parts) && issued == requests[..Attempts(parts)]
    {
      var requests := RequestsFor(endpoint, sourceCurrency, targetCurrency);
      ghost var parts := DayParts(requests, fetch);
      var table: seq<Row> := [];
      issued := [];
      for i := 0 to |requests|
        invariant issued == requests[..i]
        invariant AllSucceed(parts[..i])
        invariant Merge(parts[..i]) == Success(table)
      {
        issued := issued + [requests[i]];
        assert issued == requests[..i + 1];
        match fetch(requests[i])
        case ErrorStatus(code) =>
          MergeFirstFailure(parts, i);
          AttemptsFirstFailure(parts, i);
          return Failure(HTTPError(code)), issued;
        case Received(body) =>
          var part := ReshapeDay(body);
          if part.Failure? {
            MergeFirstFailure(parts, i);
            AttemptsFirstFailure(parts, i);
            return Failure(part.error), issued;
          }
          MergeStep(parts, i, table);
          table := table + part.value;
      }
      assert parts[..|requests|] == parts;
      AttemptsAllSucceed(parts);
      collected := Success(table);
    }

    /** A whole `/latest` or `/{date}` query once its URL is fixed. */
    method FetchDays(endpoint: Endpoint, fetch: Request -> Reply<DayBody>)
      returns (r: Result<Table>, issued: seq<Request>)
      ensures var requests := RequestsFor(endpoint, sourceCurrency, targetCurrency);
        var parts := DayParts(requests, fetch);
        issued == requests[..Attempts(parts)] &&
        (Merge(parts).Failure? ==> r == Failure(Merge(parts).error)) &&
        (Merge(parts).Success? ==> r.Success? && SortedReindexed(r.value, Merge(parts).value))
    {
      var collected;
      collected, issued := CollectDays(endpoint, fetch);
      r := Finish(collected);
    }

    /** `get_FX_latest`. */
    method GetLatest(fetch: Request -> Reply<DayBody>) returns (r: Result<Table>, issued: seq<Request>)
      ensures var requests := RequestsFor(Latest, sourceCurrency, targetCurrency);
        var parts := DayParts(requests, fetch);
        issued == requests[..Attempts(parts)] &&
        (Merge(parts).Failure? ==> r == Failure(Merge(parts).error)) &&
        (Merge(parts).Success? ==> r.Success? && SortedReindexed(r.value, Merge(parts).value))
    {
      r, issued := FetchDays(Latest, fetch);
    }

    /** `get_FX_date`: the date is checked before any request; the rows are
        stamped with each reply's own date. */
    method GetDate(date: Value, fetch: Request -> Reply<DayBody>) returns (r: Result<Table>, issued: seq<Request>)
      ensures CheckDate("date", date).Failure? ==> r == Failure(CheckDate("date", date).error) && issued == []
      ensures CheckDate("date", date).Success? ==>
        var requests := RequestsFor(OnDate(date.s), sourceCurrency, targetCurrency);
        var parts := DayParts(requests, fetch);
        issued == requests[..Attempts(parts)] &&
        (Merge(parts).Failure? ==> r == Failure(Merge(parts).error)) &&
        (Merge(parts).Success? ==> r.Success? && SortedReindexed(r.value, Merge(parts).value))
    {
      var checked := CheckDate("date", date);
      if checked.Failure? {
        return Failure(checked.error), [];
      }
      r, issued := FetchDays(OnDate(checked.value), fetch);
    }

    /** `get_FX_date_range`: `start_at` is checked, then `end_at`, before any
        request. */
    method GetDateRange(startAt: Value, endAt: Value, fetch: Request -> Reply<RangeBody>)
      returns (r: Result<Table>, issued: seq<Request>)
      ensures CheckDate("start_at", startAt).Failure? ==>
        r == Failure(CheckDate("start_at", startAt).error) && issued == []
      ensures CheckDate("start_at", startAt).Success? && CheckDate("end_at", endAt).Failure? ==>
        r == Failure(CheckDate("end_at", endAt).error) && issued == []
      ensures CheckDate("start_at", startAt).Success? && CheckDate("end_at", endAt).Success? ==>
        var requests := RequestsFor(History(startAt.s, endAt.s), sourceCurrency, targetCurrency);
        var parts := HistoryParts(requests, fetch);
        issued == requests[..Attempts(parts)] &&
        (Merge(parts).Failure? ==> r == Failure(Merge(parts).error)) &&
        (Merge(parts).Success? ==> r.Success? && SortedReindexed(r.value, Merge(parts).value))
    {
      var checkedStart := CheckDate("start_at", startAt);
      if checkedStart.Failure? {
        return Failure(checkedStart.error), [];
      }
      var checkedEnd := CheckDate("end_at", endAt);
      if checkedEnd.Failure? {
        return Failure(checkedEnd.error), [];
      }
      r, issued := FetchRange(checkedStart.value, checkedEnd.value, fetch);
    }

    /** The request loop of `get_FX_date_range`, once both dates passed. */
    method CollectRange(start: string, end: string, fetch: Request -> Reply<RangeBody>)
      returns (collected: Result<seq<Row>>, issued: seq<Request>)
      ensures var requests := RequestsFor(History(start, end), sourceCurrency, targetCurrency);
        var parts := HistoryParts(requests, fetch);
        collected == Merge(parts) && issued == requests[..Attempts(parts)]
    {
      var requests := RequestsFor(History(start, end), sourceCurrency, targetCurrency);
      ghost var parts := HistoryParts(requests, fetch);
      var table: seq<Row> := [];
      issued := [];
      for i := 0 to |requests|
        invariant issued == requests[..i]
        invariant AllSucceed(parts[..i])
        invariant Merge(parts[..i]) == Success(table)
      {
        issued := issued + [requests[i]];
        assert issued == requests[..i + 1];
        match fetch(requests[i])
        case ErrorStatus(code) =>
          MergeFirstFailure(parts, i);
          AttemptsFirstFailure(parts, i);
          return Failure(HTTPError(code)), issued;
        case Received(body) =>
          var part := ReshapeHistory(body);
          if part.Failure? {
            MergeFirstFailure(parts, i);
            AttemptsFirstFailure(parts, i);
            return Failure(part.error), issued;
          }
          MergeStep(parts, i, table);
          table := table + part.value;
      }
      assert parts[..|requests|] == parts;
      AttemptsAllSucceed(parts);
      collected := Success(table);
    }

    /** A whole `/history` query once both dates passed. */
    method FetchRange(start: string, end: string, fetch: Request -> Reply<RangeBody>)
      returns (r: Result<Table>, issued: seq<Request>)
      ensures var requests := RequestsFor(History(start, end), sourceCurrency, targetCurrency);
        var parts := HistoryParts(requests, fetch);
        issued == requests[..Attempts(parts)] &&
        (Merge(parts).Failure? ==> r == Failure(Merge(parts).error)) &&
        (Merge(parts).Success? ==> r.Success? && SortedReindexed(r.value, Merge(parts).value))
    {
      var collected;
      collected, issued := CollectRange(start, end, fetch);
      r := Finish(collected);
    }
  }

  predicate DayReplyDotFree(reply: Reply<DayBody>)
  {
    reply.Received? ==> KeysDotFree(reply.body.rates)
  }

  predicate RangeReplyDotFree(reply: Reply<RangeBody>)
  {
    reply.Received? ==> HistoryKeysDotFree(reply.body.rates)
  }

  /** The reply, if received, has at least one rate. */
  predicate DayReplyHasRates(reply: Reply<DayBody>)
  {
    reply.Received? ==> reply.body.rates != []
  }

  /** The reply, if received, has a date key holding at least one rate. */
  predicate RangeReplyHasRates(reply: Reply<RangeBody>)
  {
    reply.Received? ==> exists k :: 0 <= k < |reply.body.rates| && reply.body.rates[k].1 != []
  }

  /** For replies whose keys contain no ".", a successful `/latest` query of
      `api.py` has concatenated the same rows as the same query of
      `fx_api.py`, which succeeds too: its result is the sorted, renumbered
      `fx_api.py` table. The converse holds when every received reply has
      a rate; a reply with an empty `rates` object fails only in `api.py`. */
  lemma LatestAgrees(requests: seq<Request>, fetch: Request -> Reply<DayBody>)
    requires forall i :: 0 <= i < |requests| ==> DayReplyDotFree(fetch(requests[i]))
    ensures Merge(DayParts(requests, fetch)).Success? ==>
      Merge(FxApi.LatestParts(requests, fetch)).Success? &&
      Merge(DayParts(requests, fetch)).value == Merge(FxApi.LatestParts(requests, fetch)).value
    ensures (forall i :: 0 <= i < |requests| ==> DayReplyHasRates(fetch(requests[i]))) ==>
      (Merge(FxApi.LatestParts(requests, fetch)).Success? ==> Merge(DayParts(requests, fetch)).Success?)
  {
    var a, b := DayParts(requests, fetch), FxApi.LatestParts(requests, fetch);
    MergeSucceeds(a);
    MergeSucceeds(b);
    if AllSucceed(a) {
      forall i | 0 <= i < |requests|
        ensures b[i].Success? && a[i].value == b[i].value
      {
        ReshapeDayFails(fetch(requests[i]).body);
        ReshapeDayIsFlatten(fetch(requests[i]).body);
      }
      assert TablesOf(a) == TablesOf(b);
      MergeAllSucceed(a);
      MergeAllSucceed(b);
    }
    if (forall i :: 0 <= i < |requests| ==> DayReplyHasRates(fetch(requests[i]))) && AllSucceed(b) {
      forall i | 0 <= i < |requests|
        ensures a[i].Success?
      {
        ReshapeDayFails(fetch(requests[i]).body);
      }
    }
  }

  /** The same agreement for `/history` queries, for date and target keys
      without "."; a reply without any rate fails only in `api.py`. */
  lemma RangeAgrees(requests: seq<Request>, fetch: Request -> Reply<RangeBody>)
    requires forall i :: 0 <= i < |requests| ==> RangeReplyDotFree(fetch(requests[i]))
    ensures Merge(HistoryParts(requests, fetch)).Success? ==>
      Merge(FxApi.RangeParts(requests, fetch)).Success? &&
      Merge(HistoryParts(requests, fetch)).value == Merge(FxApi.RangeParts(requests, fetch)).value
    ensures (forall i :: 0 <= i < |requests| ==> RangeReplyHasRates(fetch(requests[i]))) ==>
      (Merge(FxApi.RangeParts(requests, fetch)).Success? ==> Merge(HistoryParts(requests, fetch)).Success?)
  {
    var a, b := HistoryParts(requests, fetch), FxApi.RangeParts(requests, fetch);
    MergeSucceeds(a);
    MergeSucceeds(b);
    if AllSucceed(a) {
      forall i | 0 <= i < |requests|
        ensures b[i].Success? && a[i].value == b[i].value
      {
        var body := fetch(requests[i]).body;
        ReshapeHistoryFails(body);
        RateCountZero(body.rates);
        ReshapeHistoryIsFlatten(body);
      }
      assert TablesOf(a) == TablesOf(b);
      MergeAllSucceed(a);
      MergeAllSucceed(b);
    }
    if (forall i :: 0 <= i < |requests| ==> RangeReplyHasRates(fetch(requests[i]))) && AllSucceed(b) {
      forall i | 0 <= i < |requests|
        ensures a[i].Success?
      {
        ReshapeHistoryFails(fetch(requests[i]).body);
      }
    }
  }

  /** A received reply with an empty `rates` object: `fx_api.py` adds no
      row for it and goes on, `api.py` raises KeyError. */
  lemma EmptyRatesDiverge(request: Request, fetch: Request -> Reply<DayBody>)
    requires fetch(request).Received? && fetch(request).body.rates == []
    ensures Merge(FxApi.LatestParts([request], fetch)) == Success([])
    ensures Merge(DayParts([request], fetch)) == Failure(KeyError("[1]"))
  {
    var body := fetch(request).body;
    ReshapeDayFails(body);
    var fx, api := FxApi.LatestParts([request], fetch), DayParts([request], fetch);
    assert fx[0] == Success(FlattenRates(body.date, body.base, [])) == Success([]);
    assert fx[..0] == [] && api[..0] == [];
    assert Merge(fx[..0]) == Success([]);
    assert |fx| == 1 && fx[..|fx| - 1] == fx[..0];
    assert Merge(fx) == Success([] + []);
    assert Merge(fx).value == [];
    assert api[0] == ReshapeDay(body);
  }

  /** A `/history` range with no working day, `{"base": ..., "rates": {}}`:
      `fx_api.py` returns no row for it, `api.py` raises KeyError. */
  lemma EmptyHistoryDiverges(request: Request, fetch: Request -> Reply<RangeBody>)
    requires fetch(request).Received? && fetch(request).body.rates == []
    ensures Merge(FxApi.RangeParts([request], fetch)) == Success([])
    ensures Merge(HistoryParts([request], fetch)) == Failure(KeyError("[1, 2]"))
  {
    var body := fetch(request).body;
    ReshapeHistoryFails(body);
    var fx, api := FxApi.RangeParts([request], fetch), HistoryParts([request], fetch);
    assert fx[0] == Success(FlattenHistory(body.base, [])) == Success([]);
    assert fx[..0] == [] && api[..0] == [];
    assert Merge(fx[..0]) == Success([]);
    assert |fx| == 1 && fx[..|fx| - 1] == fx[..0];
    assert Merge(fx) == Success([] + []);
    assert Merge(fx).value == [];
    assert api[0] == ReshapeHistory(body);
  }

  /** In `api.py` a row's date and source come from a reply body's `date`
      and `base` fields, also in `get_FX_date`, where `fx_api.py` stamps the
      caller's argument instead. */
  lemma DayRowsFromBodies(requests: seq<Request>, fetch: Request -> Reply<DayBody>, row: Row)
    requires Merge(DayParts(requests, fetch)).Success?
    requires row in Merge(DayParts(requests, fetch)).value
    ensures exists i :: (0 <= i < |requests| && fetch(requests[i]).Received? &&
      row.date == fetch(requests[i]).body.date && row.source == fetch(requests[i]).body.base)
  {
    var parts := DayParts(requests, fetch);
    MergeMember(parts, row);
    var i :| 0 <= i < |parts| && row in parts[i].value;
    var b := fetch(requests[i]).body;
    assert parts[i].value == SelectDay(b.date, b.base, Melt(RateColumns("rates.", b.rates)));
    SelectDayStamps(b.date, b.base, Melt(RateColumns("rates.", b.rates)), row);
  }

  /** Every date in a `/history` result is a date key of one of the replies,
      for keys without "."; its source is that reply's base and its target
      and rate an entry under that date. */
  lemma RangeRowsFromDateKeys(requests: seq<Request>, fetch: Request -> Reply<RangeBody>, row: Row)
    requires forall i :: 0 <= i < |requests| ==> RangeReplyDotFree(fetch(requests[i]))
    requires Merge(HistoryParts(requests, fetch)).Success?
    requires row in Merge(HistoryParts(requests, fetch)).value
    ensures exists i :: (0 <= i < |requests| && fetch(requests[i]).Received? &&
      row.source == fetch(requests[i]).body.base &&
      exists k :: (0 <= k < |fetch(requests[i]).body.rates| &&
        fetch(requests[i]).body.rates[k].0 == row.date &&
        (row.target, row.rate) in fetch(requests[i]).body.rates[k].1))
  {
    var parts := HistoryParts(requests, fetch);
    MergeMember(parts, row);
    var i :| 0 <= i < |parts| && row in parts[i].value;
    var b := fetch(requests[i]).body;
    ReshapeHistoryFails(b);
    RateCountZero(b.rates);
    ReshapeHistoryIsFlatten(b);
    FlattenHistoryMember(b.base, b.rates, row);
  }
}
