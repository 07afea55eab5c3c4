/** The long-format table both clients return, and the reference reshape of
    one reply into it: one row per rate, stamped with a date and the reply's
    base currency. */
module Rows {
  import opened Transport

  /** One row of the result: columns `date`, `source_currency`,
      `target_currency`, `exchange_rate_to_target`. */
  datatype Row = Row(date: string, source: string, target: string, rate: Rate)

  /** One row per key of `rates`, in key order, every row stamped with
      `date` and `base`. */
  function FlattenRates(date: string, base: string, rates: RateObject): seq<Row>
  {
    if rates == [] then []
    else
      var (target, rate) := rates[|rates| - 1];
      FlattenRates(date, base, rates[..|rates| - 1]) + [Row(date, base, target, rate)]
  }

  /** The i-th row of a flattened rate object comes from its i-th key and
      nowhere else: the count equals the number of keys, the target is the
      key, the rate is copied unchanged. */
  lemma {:induction false} FlattenRatesAt(date: string, base: string, rates: RateObject)
    ensures |FlattenRates(date, base, rates)| == |rates|
    ensures forall i :: 0 <= i < |rates| ==>
      FlattenRates(date, base, rates)[i] == Row(date, base, rates[i].0, rates[i].1)
  {
    if rates != [] {
      FlattenRatesAt(date, base, rates[..|rates| - 1]);
    }
  }

  /** A row is in a flattened rate object exactly when it is stamped with
      the date and base and carries one of the object's entries. */
  lemma FlattenRatesMember(date: string, base: string, rates: RateObject, row: Row)
    ensures row in FlattenRates(date, base, rates) <==>
      row.date == date && row.source == base && (row.target, row.rate) in rates
  {
    FlattenRatesAt(date, base, rates);
    var rows := FlattenRates(date, base, rates);
    if row in rows {
      var i :| 0 <= i < |rows| && rows[i] == row;
      assert rates[i] == (row.target, row.rate);
    }
    if row.date == date && row.source == base && (row.target, row.rate) in rates {
      var i :| 0 <= i < |rates| && rates[i] == (row.target, row.rate);
      assert rows[i] == row;
    }
  }

  /** The number of rates in a two-level object: the sum of the inner sizes. */
  function RateCount(days: seq<(string, RateObject)>): nat
  {
    if days == [] then 0 else RateCount(days[..|days| - 1]) + |days[|days| - 1].1|
  }

  /** No rates at all exactly when every date key holds an empty object. */
  lemma {:induction false} RateCountZero(days: seq<(string, RateObject)>)
    ensures RateCount(days) == 0 <==> forall i :: 0 <= i < |days| ==> days[i].1 == []
  {
    if days != [] {
      var n := |days| - 1;
      RateCountZero(days[..n]);
      if RateCount(days) == 0 {
        forall i | 0 <= i < |days|
          ensures days[i].1 == []
        {
          if i < n {
            assert days[..n][i] == days[i];
          }
        }
      } else if forall i :: 0 <= i < |days| ==> days[i].1 == [] {
        forall i | 0 <= i < n
          ensures days[..n][i].1 == []
        {
          assert days[..n][i] == days[i];
        }
      }
    }
  }

  /** One row per (date key, target key) pair, date-major, then target order. */
  function FlattenHistory(base: string, days: seq<(string, RateObject)>): seq<Row>
  {
    if days == [] then []
    else
      var (date, rates) := days[|days| - 1];
      FlattenHistory(base, days[..|days| - 1]) + FlattenRates(date, base, rates)
  }

  lemma {:induction false} FlattenHistoryLength(base: string, days: seq<(string, RateObject)>)
    ensures |FlattenHistory(base, days)| == RateCount(days)
  {
    if days != [] {
      FlattenHistoryLength(base, days[..|days| - 1]);
      FlattenRatesAt(days[|days| - 1].0, base, days[|days| - 1].1);
    }
  }

  /** Flattening distributes over splitting the dates: every row of an
      earlier date key comes before every row of a later one. */
  lemma {:induction false} FlattenHistoryAppend(base: string, a: seq<(string, RateObject)>, b: seq<(string, RateObject)>)
    ensures FlattenHistory(base, a + b) == FlattenHistory(base, a) + FlattenHistory(base, b)
  {
    if b != [] {
      var ab := a + b;
      assert ab[..|ab| - 1] == a + b[..|b| - 1];
      FlattenHistoryAppend(base, a, b[..|b| - 1]);
    } else {
      assert a + b == a;
    }
  }

  /** A row is in a flattened two-level object exactly when its date is one
      of the date keys, its source is the base, and its target and rate are
      an entry under that date. */
  lemma {:induction false} FlattenHistoryMember(base: string, days: seq<(string, RateObject)>, row: Row)
    ensures row in FlattenHistory(base, days) <==>
      row.source == base &&
      exists i :: 0 <= i < |days| && days[i].0 == row.date && (row.target, row.rate) in days[i].1
  {
    if days != [] {
      var n := |days| - 1;
      FlattenHistoryMember(base, days[..n], row);
      FlattenRatesMember(days[n].0, base, days[n].1, row);
      assert FlattenHistory(base, days) == FlattenHistory(base, days[..n]) + FlattenRates(days[n].0, base, days[n].1);
      if row in FlattenHistory(base, days[..n]) {
        var i :| 0 <= i < n && days[..n][i].0 == row.date && (row.target, row.rate) in days[..n][i].1;
        assert days[..n][i] == days[i];
      }
      if row.source == base && exists i :: 0 <= i < |days| && days[i].0 == row.date && (row.target, row.rate) in days[i].1 {
        var i :| 0 <= i < |days| && days[i].0 == row.date && (row.target, row.rate) in days[i].1;
        if i < n {
          assert days[..n][i] == days[i];
        }
      }
    }
  }
}
