/** The per-reply reshape of `fx_api/api.py`, an expression pipeline:
    `json_normalize` flattens the body into one record whose nested keys are
    joined with "."; `melt` turns every column whose name starts with
    "rates." into a row; `str.split(".")` recovers the date and target
    currency from the column name; the four result columns are selected. */
module Reshape {
  import opened Values
  import opened Transport
  import opened Rows

  /** Python's `s.split(".")`. */
  function Split(s: string): (parts: seq<string>)
    ensures |parts| >= 1
  {
    if s == [] then [""]
    else
      var rest := Split(s[1..]);
      if s[0] == '.' then [""] + rest
      else [[s[0]] + rest[0]] + rest[1..]
  }

  /** Python's `".".join(parts)`. */
  function Join(parts: seq<string>): string
    requires |parts| >= 1
  {
    if |parts| == 1 then parts[0] else parts[0] + "." + Join(parts[1..])
  }

  /** Joining the pieces of a split gives back the string. */
  lemma {:induction false} JoinSplit(s: string)
    ensures Join(Split(s)) == s
  {
    if s != [] {
      var rest := Split(s[1..]);
      JoinSplit(s[1..]);
      if s[0] == '.' {
        assert Split(s)[1..] == rest;
      } else if |rest| > 1 {
        assert Split(s)[1..] == rest[1..];
      }
      assert s == [s[0]] + s[1..];
    }
  }

  predicate DotFree(s: string)
  {
    '.' !in s
  }

  lemma {:induction false} SplitDotFree(a: string)
    requires DotFree(a)
    ensures Split(a) == [a]
  {
    if a != [] {
      assert DotFree(a[1..]) by { assert forall c :: c in a[1..] ==> c in a; }
      SplitDotFree(a[1..]);
      assert a == [a[0]] + a[1..];
    }
  }

  /** A dot-free first piece is split off as a whole. */
  lemma {:induction false} SplitAfter(a: string, b: string)
    requires DotFree(a)
    ensures Split(a + "." + b) == [a] + Split(b)
  {
    if a == [] {
      assert a + "." + b == ['.'] + b;
      assert (a + "." + b)[1..] == b;
    } else {
      assert DotFree(a[1..]) by { assert forall c :: c in a[1..] ==> c in a; }
      assert (a + "." + b)[1..] == a[1..] + "." + b;
      SplitAfter(a[1..], b);
      assert a == [a[0]] + a[1..];
    }
  }

  /** Piece `i` of a split column name. Every column the melt keeps starts
      with "rates." and so has piece 1, and every `/history` column has
      pieces 1 and 2; the empty string stands for a piece pandas would fill
      with a missing value, which these columns never need. */
  function Piece(pieces: seq<string>, i: nat): string
  {
    if i < |pieces| then pieces[i] else ""
  }

  /** The columns `json_normalize` makes from the entries of a rate object
      nested under `prefix`: "rates.CAD", or "rates.2020-03-16.CAD". */
  function RateColumns(prefix: string, rates: RateObject): seq<(string, Rate)>
  {
    seq(|rates|, i requires 0 <= i < |rates| => (prefix + rates[i].0, rates[i].1))
  }

  /** The rate columns of a `/history` body, one group per date key. */
  function HistoryColumns(days: seq<(string, RateObject)>): seq<(string, Rate)>
  {
    if days == [] then []
    else HistoryColumns(days[..|days| - 1]) + RateColumns("rates." + days[|days| - 1].0 + ".", days[|days| - 1].1)
  }

  predicate IsRatesColumn(name: string)
  {
    |name| >= 6 && name[..6] == "rates."
  }

  lemma RatesColumnExtends(prefix: string, key: string)
    requires IsRatesColumn(prefix)
    ensures IsRatesColumn(prefix + key)
  {
    assert (prefix + key)[..6] == prefix[..6];
  }

  /** `melt(value_vars=[col for col in columns if col.startswith("rates.")])`:
      the name and value of each rate column, in column order. */
  function Melt(cols: seq<(string, Rate)>): seq<(string, Rate)>
  {
    if cols == [] then []
    else
      var last := cols[|cols| - 1];
      Melt(cols[..|cols| - 1]) + (if IsRatesColumn(last.0) then [last] else [])
  }

  lemma {:induction false} MeltAppend(a: seq<(string, Rate)>, b: seq<(string, Rate)>)
    ensures Melt(a + b) == Melt(a) + Melt(b)
  {
    if b == [] {
      assert a + b == a;
    } else {
      assert (a + b)[..|a + b| - 1] == a + b[..|b| - 1];
      MeltAppend(a, b[..|b| - 1]);
    }
  }

  /** Every column made under "rates." is kept by the melt, in order. */
  lemma {:induction false} MeltKeepsRateColumns(prefix: string, rates: RateObject)
    requires IsRatesColumn(prefix)
    ensures Melt(RateColumns(prefix, rates)) == RateColumns(prefix, rates)
  {
    if rates != [] {
      var n := |rates| - 1;
      var cols := RateColumns(prefix, rates);
      assert cols[..n] == RateColumns(prefix, rates[..n]);
      MeltKeepsRateColumns(prefix, rates[..n]);
      RatesColumnExtends(prefix, rates[n].0);
      assert Melt(cols) == Melt(cols[..n]) + [cols[n]];
      assert cols == cols[..n] + [cols[n]];
    }
  }

  /** The reshape of a `/latest` or `/{date}` body: the id columns `date` and
      `source_currency` (renamed from `base`) repeat on every melted row;
      the target is piece 1 of the column name. */
  function SelectDay(date: string, base: string, melted: seq<(string, Rate)>): seq<Row>
  {
    if melted == [] then []
    else
      var (name, rate) := melted[|melted| - 1];
      SelectDay(date, base, melted[..|melted| - 1]) + [Row(date, base, Piece(Split(name), 1), rate)]
  }

  /** Every row of a day reshape carries the id columns: the body's date
      and base, whatever the column names are. */
  lemma {:induction false} SelectDayStamps(date: string, base: string, melted: seq<(string, Rate)>, row: Row)
    requires row in SelectDay(date, base, melted)
    ensures row.date == date && row.source == base
  {
    if melted != [] {
      var n := |melted| - 1;
      if row in SelectDay(date, base, melted[..n]) {
        SelectDayStamps(date, base, melted[..n], row);
      }
    }
  }

  /** The reshape of a `/latest` or `/{date}` body. When the melt keeps no
      column, the split of the empty name column has no piece 1, and
      `.loc[:, [1]]` raises KeyError for the missing label. */
  function ReshapeDay(b: DayBody): Result<seq<Row>>
  {
    var melted := Melt(RateColumns("rates.", b.rates));
    if melted == [] then Failure(KeyError("[1]"))
    else Success(SelectDay(b.date, b.base, melted))
  }

  /** The reshape of a `/history` body: `source_currency` is the only id
      column; pieces 1 and 2 of the column name become the date and target. */
  function SelectHistory(base: string, melted: seq<(string, Rate)>): seq<Row>
  {
    if melted == [] then []
    else
      var (name, rate) := melted[|melted| - 1];
      var pieces := Split(name);
      SelectHistory(base, melted[..|melted| - 1]) + [Row(Piece(pieces, 1), base, Piece(pieces, 2), rate)]
  }

  /** The reshape of a `/history` body; with no column to melt, `.loc[:, [1, 2]]`
      raises KeyError. */
  function ReshapeHistory(b: RangeBody): Result<seq<Row>>
  {
    var melted := Melt(HistoryColumns(b.rates));
    if melted == [] then Failure(KeyError("[1, 2]"))
    else Success(SelectHistory(b.base, melted))
  }

  predicate KeysDotFree(rates: RateObject)
  {
    forall i :: 0 <= i < |rates| ==> DotFree(rates[i].0)
  }

  predicate HistoryKeysDotFree(days: seq<(string, RateObject)>)
  {
    forall i :: 0 <= i < |days| ==> DotFree(days[i].0) && KeysDotFree(days[i].1)
  }

  lemma {:induction false} SelectDayFlattens(date: string, base: string, prefix: string, rates: RateObject)
    requires KeysDotFree(rates) && DotFree(prefix)
    ensures SelectDay(date, base, RateColumns(prefix + ".", rates)) == FlattenRates(date, base, rates)
  {
    if rates != [] {
      var n := |rates| - 1;
      assert RateColumns(prefix + ".", rates)[..n] == RateColumns(prefix + ".", rates[..n]);
      SelectDayFlattens(date, base, prefix, rates[..n]);
      SplitAfter(prefix, rates[n].0);
      SplitDotFree(rates[n].0);
    }
  }

  /** A day reshape fails exactly when the reply's `rates` object is empty:
      every other reply gives at least one "rates." column. */
  lemma ReshapeDayFails(b: DayBody)
    ensures ReshapeDay(b).Failure? <==> b.rates == []
    ensures ReshapeDay(b).Failure? ==> ReshapeDay(b).error == KeyError("[1]")
  {
    assert IsRatesColumn("rates.");
    MeltKeepsRateColumns("rates.", b.rates);
  }

  /** For bodies that carry a rate and whose target keys contain no ".",
      the pandas reshape of `api.py` succeeds and builds the same rows as
      the key loop of `fx_api.py`, in the same order, stamped with the
      body's date. */
  lemma ReshapeDayIsFlatten(b: DayBody)
    requires KeysDotFree(b.rates) && b.rates != []
    ensures ReshapeDay(b) == Success(FlattenRates(b.date, b.base, b.rates))
  {
    var cols := RateColumns("rates.", b.rates);
    assert "rates" + "." == "rates.";
    assert IsRatesColumn("rates.");
    MeltKeepsRateColumns("rates.", b.rates);
    assert Melt(cols) == cols && cols != [];
    SelectDayFlattens(b.date, b.base, "rates", b.rates);
    assert SelectDay(b.date, b.base, cols) == FlattenRates(b.date, b.base, b.rates);
  }

  lemma {:induction false} SelectHistoryAppend(base: string, a: seq<(string, Rate)>, b: seq<(string, Rate)>)
    ensures SelectHistory(base, a + b) == SelectHistory(base, a) + SelectHistory(base, b)
  {
    if b == [] {
      assert a + b == a;
    } else {
      assert (a + b)[..|a + b| - 1] == a + b[..|b| - 1];
      SelectHistoryAppend(base, a, b[..|b| - 1]);
    }
  }

  lemma {:induction false} SelectHistoryOneDate(base: string, date: string, rates: RateObject)
    requires DotFree(date) && KeysDotFree(rates)
    ensures SelectHistory(base, RateColumns("rates." + date + ".", rates)) == FlattenRates(date, base, rates)
  {
    if rates != [] {
      var n := |rates| - 1;
      assert RateColumns("rates." + date + ".", rates)[..n] == RateColumns("rates." + date + ".", rates[..n]);
      SelectHistoryOneDate(base, date, rates[..n]);
      var t := rates[n].0;
      assert "rates." + date + "." + t == "rates" + "." + (date + "." + t);
      SplitAfter("rates", date + "." + t);
      SplitAfter(date, t);
      SplitDotFree(t);
    }
  }

  /** Melting the history columns keeps all of them, date group by group. */
  lemma {:induction false} MeltKeepsHistoryColumns(days: seq<(string, RateObject)>)
    ensures Melt(HistoryColumns(days)) == HistoryColumns(days)
  {
    if days != [] {
      var n := |days| - 1;
      MeltKeepsHistoryColumns(days[..n]);
      MeltAppend(HistoryColumns(days[..n]), RateColumns("rates." + days[n].0 + ".", days[n].1));
      assert ("rates." + days[n].0 + ".")[..6] == "rates.";
      MeltKeepsRateColumns("rates." + days[n].0 + ".", days[n].1);
    }
  }

  lemma {:induction false} SelectHistoryFlattens(base: string, days: seq<(string, RateObject)>)
    requires HistoryKeysDotFree(days)
    ensures SelectHistory(base, HistoryColumns(days)) == FlattenHistory(base, days)
  {
    if days != [] {
      var n := |days| - 1;
      assert HistoryKeysDotFree(days[..n]) by {
        forall i | 0 <= i < n ensures DotFree(days[..n][i].0) && KeysDotFree(days[..n][i].1) {
          assert days[..n][i] == days[i];
        }
      }
      SelectHistoryFlattens(base, days[..n]);
      SelectHistoryAppend(base, HistoryColumns(days[..n]), RateColumns("rates." + days[n].0 + ".", days[n].1));
      SelectHistoryOneDate(base, days[n].0, days[n].1);
    }
  }

  /** The history melt sees one column per (date, target) entry. */
  lemma {:induction false} HistoryColumnsLength(days: seq<(string, RateObject)>)
    ensures |HistoryColumns(days)| == RateCount(days)
  {
    if days != [] {
      HistoryColumnsLength(days[..|days| - 1]);
    }
  }

  /** A `/history` reshape fails exactly when no date key holds a rate: a
      range with no working day, `{"rates": {}}`, is one such reply. */
  lemma ReshapeHistoryFails(b: RangeBody)
    ensures ReshapeHistory(b).Failure? <==> forall i :: 0 <= i < |b.rates| ==> b.rates[i].1 == []
    ensures ReshapeHistory(b).Failure? ==> ReshapeHistory(b).error == KeyError("[1, 2]")
  {
    MeltKeepsHistoryColumns(b.rates);
    HistoryColumnsLength(b.rates);
    RateCountZero(b.rates);
  }

  /** For bodies that carry a rate and whose date and target keys contain
      no ".", splitting "rates.DATE.TARGET" recovers both keys: the pandas
      reshape of `api.py` succeeds and builds the same rows as the nested
      key loop of `fx_api.py`. */
  lemma ReshapeHistoryIsFlatten(b: RangeBody)
    requires HistoryKeysDotFree(b.rates) && RateCount(b.rates) > 0
    ensures ReshapeHistory(b) == Success(FlattenHistory(b.base, b.rates))
  {
    MeltKeepsHistoryColumns(b.rates);
    HistoryColumnsLength(b.rates);
    SelectHistoryFlattens(b.base, b.rates);
  }
}
