/** The order `sort_values(by=["date", "source_currency",
    "target_currency"], ascending=True)` puts rows in: Python compares
    strings code point by code point, a proper prefix first, and the three
    columns lexicographically. */
module Ordering {
  import opened Rows

  /** Python's `a <= b` on `str`. */
  predicate StrLe(a: string, b: string)
  {
    if a == [] then true
    else if b == [] then false
    else if a[0] != b[0] then a[0] < b[0]
    else StrLe(a[1..], b[1..])
  }

  lemma {:induction false} StrLeTotal(a: string, b: string)
    ensures StrLe(a, b) || StrLe(b, a)
  {
    if a != [] && b != [] && a[0] == b[0] {
      StrLeTotal(a[1..], b[1..]);
    }
  }

  lemma {:induction false} StrLeAntisymmetric(a: string, b: string)
    requires StrLe(a, b) && StrLe(b, a)
    ensures a == b
  {
    if a != [] && b != [] {
      StrLeAntisymmetric(a[1..], b[1..]);
      assert a == [a[0]] + a[1..] && b == [b[0]] + b[1..];
    }
  }

  lemma {:induction false} StrLeTransitive(a: string, b: string, c: string)
    requires StrLe(a, b) && StrLe(b, c)
    ensures StrLe(a, c)
  {
    if a != [] && b != [] && c != [] && a[0] == b[0] && b[0] == c[0] {
      StrLeTransitive(a[1..], b[1..], c[1..]);
    }
  }

  /** Row order: by date, then source currency, then target currency. The
      rate takes no part, so rows equal on all three keys are tied. */
  predicate RowLe(x: Row, y: Row)
  {
    if x.date != y.date then StrLe(x.date, y.date)
    else if x.source != y.source then StrLe(x.source, y.source)
    else StrLe(x.target, y.target)
  }

  lemma RowLeTotal(x: Row, y: Row)
    ensures RowLe(x, y) || RowLe(y, x)
  {
    StrLeTotal(x.date, y.date);
    StrLeTotal(x.source, y.source);
    StrLeTotal(x.target, y.target);
  }

  lemma RowLeTransitive(x: Row, y: Row, z: Row)
    requires RowLe(x, y) && RowLe(y, z)
    ensures RowLe(x, z)
  {
    if x.date != y.date && StrLe(y.date, x.date) {
      StrLeAntisymmetric(x.date, y.date);
    }
    if y.date != z.date && StrLe(z.date, y.date) {
      StrLeAntisymmetric(y.date, z.date);
    }
    if x.date == y.date == z.date {
      if x.source != y.source && StrLe(y.source, x.source) {
        StrLeAntisymmetric(x.source, y.source);
      }
      if y.source != z.source && StrLe(z.source, y.source) {
        StrLeAntisymmetric(y.source, z.source);
      }
      if x.source == y.source == z.source {
        StrLeTransitive(x.target, y.target, z.target);
      } else if x.source != z.source {
        if x.source == y.source {
        } else if y.source == z.source {
        } else {
          StrLeTransitive(x.source, y.source, z.source);
        }
      } else {
        StrLeAntisymmetric(x.source, y.source);
      }
    } else if x.date != z.date {
      if x.date == y.date {
      } else if y.date == z.date {
      } else {
        StrLeTransitive(x.date, y.date, z.date);
      }
    } else {
      StrLeAntisymmetric(x.date, y.date);
    }
  }

  /** Every row is ordered before every later row. */
  predicate Sorted(s: seq<Row>)
  {
    forall i, j :: 0 <= i < j < |s| ==> RowLe(s[i], s[j])
  }

  /** Every row is ordered before the next one. */
  predicate AdjacentSorted(s: seq<Row>)
  {
    forall k :: 0 < k < |s| ==> RowLe(s[k - 1], s[k])
  }

  /** Neighbours in order are enough, because the row order is transitive. */
  lemma {:induction false} AdjacentSortedIsSorted(s: seq<Row>)
    requires AdjacentSorted(s)
    ensures Sorted(s)
  {
    if |s| > 1 {
      var t := s[..|s| - 1];
      assert AdjacentSorted(t);
      AdjacentSortedIsSorted(t);
      forall i | 0 <= i < |s| - 1
        ensures RowLe(s[i], s[|s| - 1])
      {
        var k := i;
        while k < |s| - 2
          invariant i <= k <= |s| - 2
          invariant RowLe(s[i], s[k + 1])
        {
          RowLeTransitive(s[i], s[k + 1], s[k + 2]);
          k := k + 1;
        }
      }
    }
  }
}
