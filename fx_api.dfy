/** `fx_api/fx_api.py`: the first client. Its constructor validates and
    normalises the currencies; each query loops over the source currencies,
    sends one request per source, flattens the reply with explicit loops
    into four parallel column lists, and appends that table to the result.
    The result is not sorted, and no response status is checked. */
module FxApi {
  import opened Values
  import opened Helpers
  import opened Dates
  import opened Transport
  import opened Rows
  import opened Tables

  /** The currencies a client stores: the source as a list of codes, the
      target as whatever the caller gave, a bare string wrapped in a list. */
  datatype Currencies = Currencies(source: seq<string>, target: Value)

  /** The validation and normalisation of `FX.__init__` (the same in both
      clients). The source must be a string or a list of strings; the target
      is checked only when it is truthy, so None, `[]`, `""`, 0 and False
      pass unchecked. */
  function Normalise(source: Value, target: Value): (r: Result<Currencies>)
    ensures r.Failure? <==>
      !IsStringOrListOfStrings(source) || (Truthy(target) && !IsStringOrListOfStrings(target))
    ensures r.Failure? && !IsStringOrListOfStrings(source) ==> r.error == TypeError("source_currency")
    ensures r.Failure? && IsStringOrListOfStrings(source) ==> r.error == TypeError("target_currency")
    ensures r.Success? && source.Str? ==> r.value.source == [source.s]
    ensures r.Success? && source.List? ==> StrList(r.value.source) == source.items
    ensures r.Success? && target.Str? ==> r.value.target == List([target])
    ensures r.Success? && !target.Str? ==> r.value.target == target
  {
    if !IsStringOrListOfStrings(source) then Failure(TypeError("source_currency"))
    else if Truthy(target) && !IsStringOrListOfStrings(target) then Failure(TypeError("target_currency"))
    else
      var sources := if source.Str? then [source.s] else StringsOf(source.items);
      var targets := if target.Str? then List([target]) else target;
      Success(Currencies(sources, targets))
  }

  /** Constructing a client from the fields another client stored gives
      back the same fields: normalisation is idempotent. */
  lemma NormaliseIdempotent(source: Value, target: Value)
    requires Normalise(source, target).Success?
    ensures var c := Normalise(source, target).value;
      Normalise(List(StrList(c.source)), c.target) == Success(c)
  {
    var c := Normalise(source, target).value;
    StrListAccepted(c.source);
    if target.Str? {
      assert c.target.items[0] == target;
    }
  }

  /** The defaults and the constructor cases of the repository's tests. */
  lemma NormaliseExamples()
    ensures Normalise(Str("GBP"), NoneValue) == Success(Currencies(["GBP"], NoneValue))
    ensures Normalise(List([Str("USD"), Str("GBP"), Str("EUR")]), List([Str("JPY"), Str("CAD")]))
         == Success(Currencies(["USD", "GBP", "EUR"], List([Str("JPY"), Str("CAD")])))
    ensures Normalise(List([Str("USD"), Str("GBP"), Int(567)]), NoneValue) == Failure(TypeError("source_currency"))
    ensures Normalise(Str("GBP"), List([Str("JPY"), Bool(true)])) == Failure(TypeError("target_currency"))
    ensures Normalise(Str("GBP"), List([])) == Success(Currencies(["GBP"], List([])))
    ensures Normalise(Str("GBP"), Bool(false)) == Success(Currencies(["GBP"], Bool(false)))
  {
    assert List([Str("USD"), Str("GBP"), Int(567)]).items[2] == Int(567);
    assert List([Str("JPY"), Bool(true)]).items[1] == Bool(true);
    var us := StringsOf([Str("USD"), Str("GBP"), Str("EUR")]);
    assert us == ["USD", "GBP", "EUR"];
  }

  /** One source's table from a `/latest` reply: stamped with the reply's
      own date. An error reply has no `rates` key, so indexing it raises. */
  function LatestPart(reply: Reply<DayBody>): Result<seq<Row>>
  {
    match reply
    case Received(b) => Success(FlattenRates(b.date, b.base, b.rates))
    case ErrorStatus(_) => Failure(KeyError("rates"))
  }

  /** One source's table from a `/{date}` reply: stamped with the caller's
      date argument, not with anything in the reply. */
  function DatePart(date: string, reply: Reply<DayBody>): Result<seq<Row>>
  {
    match reply
    case Received(b) => Success(FlattenRates(date, b.base, b.rates))
    case ErrorStatus(_) => Failure(KeyError("rates"))
  }

  /** One source's table from a `/history` reply. */
  function RangePart(reply: Reply<RangeBody>): Result<seq<Row>>
  {
    match reply
    case Received(b) => Success(FlattenHistory(b.base, b.rates))
    case ErrorStatus(_) => Failure(KeyError("rates"))
  }

  function LatestParts(requests: seq<Request>, fetch: Request -> Reply<DayBody>): (parts: seq<Result<seq<Row>>>)
    ensures |parts| == |requests|
    ensures forall i :: 0 <= i < |requests| ==> parts[i] == LatestPart(fetch(requests[i]))
  {
    seq(|requests|, i requires 0 <= i < |requests| => LatestPart(fetch(requests[i])))
  }

  function DateParts(date: string, requests: seq<Request>, fetch: Request -> Reply<DayBody>): (parts: seq<Result<seq<Row>>>)
    ensures |parts| == |requests|
    ensures forall i :: 0 <= i < |requests| ==> parts[i] == DatePart(date, fetch(requests[i]))
  {
    seq(|requests|, i requires 0 <= i < |requests| => DatePart(date, fetch(requests[i])))
  }

  function RangeParts(requests: seq<Request>, fetch: Request -> Reply<RangeBody>): (parts: seq<Result<seq<Row>>>)
    ensures |parts| == |requests|
    ensures forall i :: 0 <= i < |requests| ==> parts[i] == RangePart(fetch(requests[i]))
  {
    seq(|requests|, i requires 0 <= i < |requests| => RangePart(fetch(requests[i])))
  }

  /** `pd.DataFrame(data={...})` over four column lists of equal length:
      row i takes element i of each list. */
  function Columns(dates: seq<string>, sources: seq<string>, targets: seq<string>, rates: seq<Rate>): (rows: seq<Row>)
    requires |dates| == |sources| == |targets| == |rates|
    ensures |rows| == |dates|
    ensures forall i :: 0 <= i < |rows| ==> rows[i] == Row(dates[i], sources[i], targets[i], rates[i])
  {
    seq(|dates|, i requires 0 <= i < |dates| => Row(dates[i], sources[i], targets[i], rates[i]))
  }

  /** The inner loop of `get_FX_latest` and `get_FX_date`: one entry per
      target key appended to each of the four column lists. */
  method Tabulate(date: string, base: string, rates: RateObject) returns (table: seq<Row>)
    ensures table == FlattenRates(date, base, rates)
  {
    var dateList: seq<string>, sourceList: seq<string>, targetList: seq<string>, rateList: seq<Rate> := [], [], [], [];
    for k := 0 to |rates|
      invariant |dateList| == |sourceList| == |targetList| == |rateList| == k
      invariant Columns(dateList, sourceList, targetList, rateList) == FlattenRates(date, base, rates[..k])
    {
      assert rates[..k + 1][..k] == rates[..k];
      var (target, rate) := rates[k];
      dateList := dateList + [date];
      sourceList := sourceList + [base];
      targetList := targetList + [target];
      rateList := rateList + [rate];
    }
    assert rates[..|rates|] == rates;
    table := Columns(dateList, sourceList, targetList, rateList);
  }

  /** The nested loop of `get_FX_date_range`: date keys in order, and for
      each the target keys in order. */
  method TabulateHistory(base: string, days: seq<(string, RateObject)>) returns (table: seq<Row>)
    ensures table == FlattenHistory(base, days)
  {
    var dateList: seq<string>, sourceList: seq<string>, targetList: seq<string>, rateList: seq<Rate> := [], [], [], [];
    for k := 0 to |days|
      invariant |dateList| == |sourceList| == |targetList| == |rateList|
      invariant Columns(dateList, sourceList, targetList, rateList) == FlattenHistory(base, days[..k])
    {
      var (date, rates) := days[k];
      assert days[..k + 1][..k] == days[..k];
      for m := 0 to |rates|
        invariant |dateList| == |sourceList| == |targetList| == |rateList|
        invariant Columns(dateList, sourceList, targetList, rateList)
               == FlattenHistory(base, days[..k]) + FlattenRates(date, base, rates[..m])
      {
        assert rates[..m + 1][..m] == rates[..m];
        var (target, rate) := rates[m];
        dateList := dateList + [date];
        sourceList := sourceList + [base];
        targetList := targetList + [target];
        rateList := rateList + [rate];
      }
      assert rates[..|rates|] == rates;
    }
    assert days[..|days|] == days;
    table := Columns(dateList, sourceList, targetList, rateList);
  }

  /** The client of `fx_api/fx_api.py`. */
  class FX {
    var sourceCurrency: seq<string>
    var targetCurrency: Value

    constructor (c: Currencies)
      ensures sourceCurrency == c.source && targetCurrency == c.target
    {
      sourceCurrency := c.source;
      targetCurrency := c.target;
    }

    /** `FX(source_currency, target_currency)`: raises `TypeError` instead
        of building a client when the arguments fail validation. */
    static method Create(source: Value, target: Value) returns (r: Result<FX>)
      ensures Normalise(source, target).Failure? ==> r == Failure(Normalise(source, target).error)
      ensures Normalise(source, target).Success? ==>
        r.Success? && fresh(r.value) &&
        r.value.sourceCurrency == Normalise(source, target).value.source &&
        r.value.targetCurrency == Normalise(source, target).value.target
    {
      match Normalise(source, target)
      case Failure(e) =>
        r := Failure(e);
      case Success(c) =>
        var fx := new FX(c);
        r := Success(fx);
    }

    /** `get_FX_latest`: the per-source tables concatenated in source order,
        unsorted; `issued` lists the requests sent, in order. */
    method GetLatest(fetch: Request -> Reply<DayBody>) returns (r: Result<seq<Row>>, issued: seq<Request>)
      ensures var requests := RequestsFor(Latest, sourceCurrency, targetCurrency);
        var parts := LatestParts(requests, fetch);
        r == Merge(parts) && issued == requests[..Attempts(parts)]
    {
      var requests := RequestsFor(Latest, sourceCurrency, targetCurrency);
      ghost var parts := LatestParts(requests, fetch);
      var table: seq<Row> := [];
      issued := [];
      for i := 0 to |requests|
        invariant issued == requests[..i]
        invariant AllSucceed(parts[..i])
        invariant Merge(parts[..i]) == Success(table)
      {
        issued := issued + [requests[i]];
        assert issued == requests[..i + 1];
        match fetch(requests[i])
        case ErrorStatus(_) =>
          MergeFirstFailure(parts, i);
          AttemptsFirstFailure(parts, i);
          return Failure(KeyError("rates")), issued;
        case Received(body) =>
          var temp := Tabulate(body.date, body.base, body.rates);
          MergeStep(parts, i, table);
          table := table + temp;
      }
      assert parts[..|requests|] == parts;
      AttemptsAllSucceed(parts);
      r := Success(table);
    }

    /** `get_FX_date`: the date is checked before any request; every row is
        stamped with the caller's date. */
    method GetDate(date: Value, fetch: Request -> Reply<DayBody>) returns (r: Result<seq<Row>>, issued: seq<Request>)
      ensures CheckDate("date", date).Failure? ==> r == Failure(CheckDate("date", date).error) && issued == []
      ensures CheckDate("date", date).Success? ==>
        var requests := RequestsFor(OnDate(date.s), sourceCurrency, targetCurrency);
        var parts := DateParts(date.s, requests, fetch);
        r == Merge(parts) && issued == requests[..Attempts(parts)]
      ensures r.Success? ==> date.Str? && forall k :: 0 <= k < |r.value| ==> r.value[k].date == date.s
    {
      issued := [];
      match CheckDate("date", date)
      case Failure(e) =>
        return Failure(e), issued;
      case Success(d) =>
        var requests := RequestsFor(OnDate(d), sourceCurrency, targetCurrency);
        ghost var parts := DateParts(d, requests, fetch);
        var table: seq<Row> := [];
        for i := 0 to |requests|
          invariant issued == requests[..i]
          invariant AllSucceed(parts[..i])
          invariant Merge(parts[..i]) == Success(table)
          invariant forall k :: 0 <= k < |table| ==> table[k].date == d
        {
          issued := issued + [requests[i]];
          assert issued == requests[..i + 1];
          match fetch(requests[i])
          case ErrorStatus(_) =>
            MergeFirstFailure(parts, i);
            AttemptsFirstFailure(parts, i);
            return Failure(KeyError("rates")), issued;
          case Received(body) =>
            var temp := Tabulate(d, body.base, body.rates);
            FlattenRatesAt(d, body.base, body.rates);
            MergeStep(parts, i, table);
            table := table + temp;
        }
        assert parts[..|requests|] == parts;
        AttemptsAllSucceed(parts);
        r := Success(table);
    }

    /** `get_FX_date_range`: `start_at` is checked, then `end_at`, before any
        request; no check that one precedes the other. */
    method GetDateRange(startAt: Value, endAt: Value, fetch: Request -> Reply<RangeBody>)
      returns (r: Result<seq<Row>>, issued: seq<Request>)
      ensures CheckDate("start_at", startAt).Failure? ==>
        r == Failure(CheckDate("start_at", startAt).error) && issued == []
      ensures CheckDate("start_at", startAt).Success? && CheckDate("end_at", endAt).Failure? ==>
        r == Failure(CheckDate("end_at", endAt).error) && issued == []
      ensures CheckDate("start_at", startAt).Success? && CheckDate("end_at", endAt).Success? ==>
        var requests := RequestsFor(History(startAt.s, endAt.s), sourceCurrency, targetCurrency);
        var parts := RangeParts(requests, fetch);
        r == Merge(parts) && issued == requests[..Attempts(parts)]
    {
      issued := [];
      var checkedStart := CheckDate("start_at", startAt);
      if checkedStart.Failure? {
        return Failure(checkedStart.error), issued;
      }
      var checkedEnd := CheckDate("end_at", endAt);
      if checkedEnd.Failure? {
        return Failure(checkedEnd.error), issued;
      }
      r, issued := FetchRange(checkedStart.value, checkedEnd.value, fetch);
    }

    /** The request loop of `get_FX_date_range`, once both dates passed. */
    method FetchRange(start: string, end: string, fetch: Request -> Reply<RangeBody>)
      returns (r: Result<seq<Row>>, issued: seq<Request>)
      ensures var requests := RequestsFor(History(start, end), sourceCurrency, targetCurrency);
        var parts := RangeParts(requests, fetch);
        r == Merge(parts) && issued == requests[..Attempts(parts)]
    {
      var requests := RequestsFor(History(start, end), sourceCurrency, targetCurrency);
      ghost var parts := RangeParts(requests, fetch);
      var table: seq<Row> := [];
      issued := [];
      for i := 0 to |requests|
        invariant issued == requests[..i]
        invariant AllSucceed(parts[..i])
        invariant Merge(parts[..i]) == Success(table)
      {
        issued := issued + [requests[i]];
        assert issued == requests[..i + 1];
        match fetch(requests[i])
        case ErrorStatus(_) =>
          MergeFirstFailure(parts, i);
          AttemptsFirstFailure(parts, i);
          return Failure(KeyError("rates")), issued;
        case Received(body) =>
          var temp := TabulateHistory(body.base, body.rates);
          MergeStep(parts, i, table);
          table := table + temp;
      }
      assert parts[..|requests|] == parts;
      AttemptsAllSucceed(parts);
      r := Success(table);
    }
  }
}
