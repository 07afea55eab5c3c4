# fx_api in Dafny

A model of `fx_api`, a small Python client for the exchangeratesapi.io
rates service, with proofs about it. The client has two versions of the same
`FX` class:

- `fx_api/fx_api.py` flattens each JSON reply with explicit loops.
- `fx_api/api.py` checks the HTTP status, reshapes the reply with pandas
  (`json_normalize`, `melt`, `str.split`), and sorts and renumbers the final
  table.

Both validate the currencies in the constructor (`fx_api/helpers.py`), check
date arguments with `strptime(..., '%Y-%m-%d')` before any request, send one
request per source currency, and append the per-source tables in source
order.

Modules:

- `Values`: Python values as arguments, truthiness, exceptions, `Result`.
- `Helpers`: `is_string_or_list_of_strings`.
- `Dates`: the `%Y-%m-%d` grammar of CPython's `strptime` and the calendar
  check after it.
- `Transport`: requests, reply bodies, and the service as a function from
  request to reply.
- `Rows`: the reference flattening of a reply into rows.
- `Tables`: concatenation of per-source tables, and the first error stops a
  query.
- `FxApi`: the class of `fx_api.py`, with its loops.
- `Ordering`: the `(date, source_currency, target_currency)` sort order.
- `Reshape`: the pandas pipeline of `api.py`.
- `Frames`: the `DataFrame` that `api.py` sorts and re-indexes in place.
- `Api`: the class of `api.py`, and how it agrees with `fx_api.py`.

Each query method also returns `issued`, the requests sent, in order. The
proofs show that a bad date sends nothing, and that a failing source stops
the requests after its own.

Where the code and its documentation differ, the model follows the code:

- An empty source list is accepted, because `all` over an empty list is
  true; the query then returns an empty table.
- `get_FX_date` of `api.py` stamps each row with the reply's `date` field.
  `fx_api.py` stamps the caller's argument.
- `fx_api.py` never checks the status of a response.
- A reply without rates (an empty `rates` object, or a `/history` range
  that covers only weekend days) gives `fx_api.py` an empty table. In
  `api.py` the melt then has no `target_currency` strings to split, the
  selection of pieces `[1]` or `[1, 2]` finds no such column, and the query
  raises `KeyError`.

## Model

| member | source | states |
|---|---|---|
| Values.Truthy | fx_api/fx_api.py:50 | Python truthiness, the test `if target_currency:` applies; its effect is stated by FxApi.Normalise |
| Helpers.AllStrings | fx_api/helpers.py:21 | true exactly when every list element is a `str` |
| Helpers.IsStringOrListOfStrings | fx_api/helpers.py:15-26 | true exactly for a `str`, or a list all of whose elements are `str` (the empty list included) |
| Helpers.NestedListRefused | fx_api/helpers.py:19-24 | a list holding a list is refused |
| Helpers.StrListAccepted | fx_api/helpers.py:19-22 | any list built from strings is accepted, and its strings read back unchanged |
| Helpers.HelperExamples | tests/test_helpers.py:4-22 | the tested verdicts: "test string" and ["str1","str2"] accepted; 123 and ["str1", False] refused; also [], [["a"]] and None |
| Dates.DaysInMonth | fx_api/fx_api.py:151 | month lengths lie between 28 and 31 (Gregorian leap years) |
| Dates.ParseDate | fx_api/fx_api.py:151 | a parse result is always a real calendar date (year 1..9999, month 1..12, day within the month) |
| Dates.FormatParses | fx_api/fx_api.py:151 | every calendar date written as zero-padded YYYY-MM-DD parses back to itself |
| Dates.CheckDate | fx_api/fx_api.py:147-153 | succeeds exactly for a string `strptime` accepts and returns it; a non-string gives TypeError, a bad string ValueError, each naming the parameter |
| Dates.TestedDatesAccepted | tests/test_api.py:66-131 | every well-formed date the tests pass is accepted: 2019-07-23, 2020-03-13, 2020-07-01, 2019-07-29, 2020-03-14, 2020-03-17 and 2020-07-06 |
| Dates.TestedDatesRefused | tests/test_api.py:87-131 | the tested dates 2019-07-63, 2020-032-01 and 2020-03-176 are refused |
| Dates.PaddingExamples | fx_api/fx_api.py:234 | an unpadded month and day, and a space-padded day, parse |
| Dates.LeapDayExamples | fx_api/fx_api.py:242 | 29 February is accepted only in leap years |
| Dates.ZeroFieldsRefused | fx_api/fx_api.py:242 | year 0 and month 0 are refused |
| Rows.FlattenRatesAt | fx_api/fx_api.py:103-122 | the day table has one row per rate key, in key order: the date, the reply's base, the key and its rate |
| Rows.FlattenRatesMember | fx_api/fx_api.py:108-113 | a row is in the day table exactly when it carries the date and base and its (target, rate) pair is in the reply |
| Rows.FlattenHistoryLength | fx_api/fx_api.py:282-288 | the range table has as many rows as the reply has (date, target) entries |
| Rows.FlattenHistoryAppend | fx_api/fx_api.py:282-283 | rows come date by date, in the reply's date order |
| Rows.RateCountZero | fx_api/fx_api.py:282-288 | a range reply has no (date, target) entry exactly when every date key holds an empty rates object |
| Rows.FlattenHistoryMember | fx_api/fx_api.py:282-288 | a row is in the range table exactly when its source is the base and its (target, rate) pair sits under its date key in the reply |
| Tables.Merge | fx_api/fx_api.py:88-128 | the outcome of a query loop: per-source tables appended left to right, the first failing source's error otherwise; its properties are stated by Tables.MergeSucceeds, Tables.MergeFirstFailure and Tables.MergeMember |
| Tables.ConcatLength | fx_api/fx_api.py:125-128 | appending the per-source tables keeps every row: the length is the sum |
| Tables.ConcatMember | fx_api/fx_api.py:125-128 | a row is in the appended table exactly when it is in one of the per-source tables |
| Tables.MergeFailureSticks | fx_api/fx_api.py:88-128 | after the first failing source, later sources do not change the outcome |
| Tables.MergeAllSucceed | fx_api/fx_api.py:88-130 | when every source succeeds, the query returns all tables appended in source order |
| Tables.MergeFirstFailure | fx_api/api.py:117-118 | the query raises the error of the first failing source |
| Tables.FirstFailure | fx_api/api.py:103-118 | when not every source succeeds, there is a first failing one |
| Tables.MergeSucceeds | fx_api/api.py:103-137 | a query succeeds exactly when every source does, and then holds the sum of their row counts |
| Tables.MergeMember | fx_api/api.py:133-137 | the rows of a successful query are exactly the rows of its per-source tables |
| Tables.AttemptsAllSucceed | fx_api/fx_api.py:88-100 | when every source succeeds, one request is sent per source |
| Tables.AttemptsFirstFailure | fx_api/api.py:112-118 | a failure at source k stops the requests after k+1 |
| FxApi.Normalise | fx_api/fx_api.py:46-63 | fails exactly when the source is invalid, or the target is truthy and invalid, with TypeError naming the parameter checked first; a bare string becomes a one-element list; any other target is stored as given |
| FxApi.NormaliseIdempotent | fx_api/fx_api.py:55-63 | building a client from another client's stored fields gives the same fields |
| FxApi.NormaliseExamples | tests/test_api.py:11-40 | the default client, the tested constructor cases, and falsy targets ([] and False) stored unchecked |
| FxApi.LatestPart | fx_api/fx_api.py:99-113 | one `/latest` source: the reply's rows stamped with its own date, or `KeyError('rates')` for an error reply; the rows are described by Rows.FlattenRatesAt and Rows.FlattenRatesMember |
| FxApi.DatePart | fx_api/fx_api.py:180-194 | one `/{date}` source: as LatestPart, stamped with the caller's date |
| FxApi.RangePart | fx_api/fx_api.py:271-288 | one `/history` source: the nested-loop rows, or `KeyError('rates')` for an error reply; the rows are described by Rows.FlattenHistoryMember and Rows.FlattenHistoryLength |
| FxApi.Tabulate | fx_api/fx_api.py:103-113 | the key loop builds exactly the reference day table |
| FxApi.TabulateHistory | fx_api/fx_api.py:277-288 | the nested date and key loops build exactly the reference range table |
| FxApi.FX.constructor | fx_api/fx_api.py:54-63 | stores the normalised currencies |
| FxApi.FX.Create | fx_api/fx_api.py:35-63 | raises the normalisation error, or returns a new client holding the normalised fields |
| FxApi.FX.GetLatest | fx_api/fx_api.py:65-130 | the per-source tables appended unsorted, stamped with each reply's date; stops at the first error reply, which has no `rates` key, raising `KeyError('rates')` after sending exactly the requests up to it |
| FxApi.FX.GetDate | fx_api/fx_api.py:132-211 | a bad date raises before any request; otherwise the per-source tables appended in source order, every row carrying the caller's date, and `KeyError('rates')` at the first error reply after exactly the requests up to it |
| FxApi.FX.GetDateRange | fx_api/fx_api.py:213-244 | `start_at` is checked before `end_at`, both before any request; then the range query |
| FxApi.FX.FetchRange | fx_api/fx_api.py:259-305 | the per-source range tables appended in source order; stops at the first failing source |
| Ordering.StrLeTotal | fx_api/api.py:139-143 | any two strings are comparable |
| Ordering.StrLeAntisymmetric | fx_api/api.py:139-143 | strings ordered both ways are equal |
| Ordering.StrLeTransitive | fx_api/api.py:139-143 | string order is transitive |
| Ordering.RowLeTotal | fx_api/api.py:139-143 | any two rows are comparable by (date, source, target) |
| Ordering.RowLeTransitive | fx_api/api.py:139-143 | row order is transitive |
| Ordering.AdjacentSortedIsSorted | fx_api/api.py:139-143 | neighbours in order imply the whole table is in order |
| Reshape.JoinSplit | fx_api/api.py:130 | `split(".")` loses nothing: joining the pieces gives back the column name |
| Reshape.SplitDotFree | fx_api/api.py:130 | a name without "." splits into itself alone |
| Reshape.SplitAfter | fx_api/api.py:318 | a first piece without "." is split off whole |
| Reshape.MeltAppend | fx_api/api.py:123-128 | the melt works column by column |
| Reshape.MeltKeepsRateColumns | fx_api/api.py:125 | every column made under "rates." is kept by the melt |
| Reshape.SelectDayStamps | fx_api/api.py:123-124 | every melted row carries the body's date and base |
| Reshape.SelectDayFlattens | fx_api/api.py:130-131 | with dot-free keys, piece 1 of the column name is the target key |
| Reshape.ReshapeDay | fx_api/api.py:120-131 | the pandas reshape of one day reply: `KeyError` when no rate column survives the melt, otherwise the selected rows; stated by Reshape.ReshapeDayFails and Reshape.ReshapeDayIsFlatten |
| Reshape.ReshapeDayFails | fx_api/api.py:120-130 | the day reshape raises exactly when the reply's `rates` object is empty, and then with `KeyError` on the label list `[1]` |
| Reshape.ReshapeDayIsFlatten | fx_api/api.py:120-131 | with dot-free keys and at least one rate, the pandas reshape succeeds with the same rows, in the same order, as the `fx_api.py` loop |
| Reshape.SelectHistoryAppend | fx_api/api.py:318-319 | the history selection works column by column |
| Reshape.SelectHistoryOneDate | fx_api/api.py:318 | with dot-free keys, pieces 1 and 2 of "rates.DATE.TARGET" are the date and the target |
| Reshape.MeltKeepsHistoryColumns | fx_api/api.py:311-316 | every history column is kept by the melt, date group by date group |
| Reshape.SelectHistoryFlattens | fx_api/api.py:309-319 | with dot-free keys, the selected rows are the reference range table |
| Reshape.ReshapeHistory | fx_api/api.py:309-319 | the pandas reshape of one `/history` reply: `KeyError` when no column survives the melt, otherwise the selected rows; stated by Reshape.ReshapeHistoryFails and Reshape.ReshapeHistoryIsFlatten |
| Reshape.HistoryColumnsLength | fx_api/api.py:309-316 | the history melt sees one column per (date, target) entry of the reply |
| Reshape.ReshapeHistoryFails | fx_api/api.py:309-318 | the history reshape raises exactly when no date key holds a rate, and then with `KeyError` on the label list `[1, 2]` |
| Reshape.ReshapeHistoryIsFlatten | fx_api/api.py:309-319 | with dot-free keys and at least one (date, target) entry, the pandas reshape succeeds with the same rows, in the same order, as the nested `fx_api.py` loops |
| Frames.DataFrame.constructor | fx_api/api.py:134-137 | the appended table holds the rows under labels 0..n-1 |
| Frames.DataFrame.SortValues | fx_api/api.py:139-143 | in place: rows end up sorted by (date, source, target); rows and labels are permutations of what they were |
| Frames.DataFrame.Insert | fx_api/api.py:139-143 | one insertion step extends the sorted prefix by one row; the prefix's rows and labels are a permutation of what they were, and the rows and labels after it are unchanged |
| Frames.DataFrame.Swap | fx_api/api.py:139-143 | exchanges two neighbouring rows together with their labels |
| Frames.DataFrame.ResetIndex | fx_api/api.py:145-148 | in place: the labels become 0..n-1; the rows are untouched |
| Api.SortAndReindex | fx_api/api.py:139-148 | the result is the input rows, sorted, under labels 0..n-1 |
| Api.DayPart | fx_api/api.py:118-131 | one `/latest` or `/{date}` source: `raise_for_status` raises HTTPError for an error status, otherwise the reshape of the body (see Reshape.ReshapeDay) |
| Api.HistoryPart | fx_api/api.py:306-319 | one `/history` source: HTTPError for an error status, otherwise the reshape of the body (see Reshape.ReshapeHistory) |
| Api.FX.constructor | fx_api/api.py:67-76 | stores the normalised currencies |
| Api.FX.Create | fx_api/api.py:59-76 | the same validation and normalisation as `fx_api.py` |
| Api.Finish | fx_api/api.py:139-150 | an error is passed on unchanged; a table comes back sorted and renumbered |
| Api.FX.CollectDays | fx_api/api.py:103-137 | the reshaped per-source tables appended in source order; the first failing source raises its error (HTTPError with an error status, KeyError for a reply without rates), after exactly the requests up to it were sent |
| Api.FX.FetchDays | fx_api/api.py:103-150 | raises the error of the first failing source (HTTPError for an error status, KeyError for a reply without rates), after exactly the requests up to it; otherwise the appended reshaped tables, sorted and renumbered |
| Api.FX.GetLatest | fx_api/api.py:80-150 | the `/latest` query, as FetchDays: HTTPError or KeyError from the first failing source, else the sorted, renumbered table |
| Api.FX.GetDate | fx_api/api.py:154-238 | a bad date raises before any request; otherwise the `/{date}` query, as FetchDays, including KeyError for a reply without rates |
| Api.FX.GetDateRange | fx_api/api.py:242-273 | `start_at` is checked before `end_at`, both before any request; then the range query, as FetchRange |
| Api.FX.CollectRange | fx_api/api.py:289-325 | as CollectDays, for `/history` replies: HTTPError for an error status, KeyError for a reply with no (date, target) entry |
| Api.FX.FetchRange | fx_api/api.py:289-338 | as FetchDays, for `/history` replies, including KeyError for a range reply with no dates |
| Api.LatestAgrees | fx_api/api.py:120-131 | with dot-free keys, whenever the `api.py` `/latest` query succeeds the `fx_api.py` one does too, with the same appended rows (`api.py` then sorts them); the converse holds when every reply has at least one rate |
| Api.RangeAgrees | fx_api/api.py:309-319 | with dot-free keys, whenever the `api.py` `/history` query succeeds the `fx_api.py` one does too, with the same appended rows; the converse holds when every reply has at least one (date, target) entry |
| Api.EmptyRatesDiverge | fx_api/api.py:120-130 | a reply with an empty `rates` object gives `fx_api.py` an empty table but makes `api.py` raise `KeyError` |
| Api.EmptyHistoryDiverges | fx_api/api.py:309-318 | a range reply with no dates (a range of weekend days) gives `fx_api.py` an empty table but makes `api.py` raise `KeyError` |
| Api.DayRowsFromBodies | fx_api/api.py:209-219 | every row of an `api.py` day query carries the date and base of one of the replies |
| Api.RangeRowsFromDateKeys | fx_api/api.py:309-319 | with dot-free keys, every row of an `api.py` range query comes from an entry under its date key in one of the replies |

## Left out

- Not modelled: the HTTP transport, URL building, query-string encoding and
  JSON decoding. A query is given the service as a function from a request
  to a parsed body or an error status.
- Not modelled: the `ratelimit` and `backoff` decorators of `api.py`
  (lines 78-79, 152-153 and 240-241). They depend on time and retry
  internally.
- Rates are an opaque type. The client copies floats and never computes
  with them, and pandas dtypes (`object`, `float64`) are not modelled.
- Dates.ParseDate: only ASCII digits are modelled. Python's `\d` also
  matches other Unicode decimal digits.
- FxApi.LatestPart, FxApi.DatePart and FxApi.RangePart: an error response
  in `fx_api.py` is modelled as `KeyError('rates')`. This assumes the error body has no `rates` key; the
  service's error bodies are not part of this model.
- Frames.DataFrame.SortValues: pairs each row with its label by position,
  but does not state that a label stays with its row through the sort.
  Because the index is reset right afterwards, the labels do not survive.
  It also does not state that rows tied on all three keys keep their
  appended order, which pandas' multi-column sort (a stable lexicographic
  sort) guarantees. Ties arise only when a source currency is listed twice
  or a reply repeats a key.
- Reshape.Piece: a column name with too few pieces yields "", where pandas
  yields a missing value. The columns these queries melt always have
  enough pieces.
- Reshape.ReshapeDayIsFlatten and Reshape.ReshapeHistoryIsFlatten: stated
  only for keys without ".". A key with a dot would be cut at its first dot
  by `split(".")`.
- Reshape.ReshapeDay and Reshape.ReshapeHistory: the error for a reply
  without rates is `KeyError` with the missing label list as its text. The
  exact exception type and message follow pandas' behaviour for `.loc` with
  labels that are all missing, which is not part of this model.
- Not modelled: the `__main__` demo block of `fx_api.py`, `scripts/demo.py`
  and `setup.py`, which only print or package.
- A reply object's keys keep document order, as a list of pairs.
  Duplicate keys, which a JSON decoder would collapse, are not excluded.
