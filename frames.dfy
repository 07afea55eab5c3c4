/** The accumulated `DataFrame` of `fx_api/api.py` at the end of a query:
    its rows and its index labels, which `sort_values(inplace=True)`
    reorders together and `reset_index(drop=True, inplace=True)` replaces
    by 0..n-1. */
module Frames {
  import opened Rows
  import opened Ordering

  /** The dense index 0, 1, ..., n-1. */
  function Dense(n: nat): seq<int>
  {
    seq(n, i requires 0 <= i < n => i)
  }

  /** Two sequences that are permutations of each other and agree from
      position n on are permutations of each other up to n. */
  lemma PrefixPermutation<T>(a: seq<T>, b: seq<T>, n: nat)
    requires n <= |a| == |b|
    requires multiset(a) == multiset(b) && a[n..] == b[n..]
    ensures multiset(a[..n]) == multiset(b[..n])
  {
    calc {
      multiset(a[..n]);
      multiset(a[..n]) + multiset(a[n..]) - multiset(a[n..]);
      { assert a == a[..n] + a[n..]; }
      multiset(a) - multiset(b[n..]);
      { assert b == b[..n] + b[n..]; }
      multiset(b[..n]) + multiset(b[n..]) - multiset(b[n..]);
      multiset(b[..n]);
    }
  }

  class DataFrame {
    var index: array<int>
    var rows: array<Row>

    ghost predicate Valid()
      reads this
    {
      index.Length == rows.Length
    }

    /** The table `append(..., ignore_index=True)` leaves: the given rows
        under the labels 0..n-1. */
    constructor (data: seq<Row>)
      ensures Valid() && fresh(index) && fresh(rows)
      ensures rows[..] == data && index[..] == Dense(|data|)
    {
      index := new int[|data|](i requires 0 <= i < |data| => i);
      rows := new Row[|data|](i requires 0 <= i < |data| => data[i]);
    }

    /** `sort_values(by=["date", "source_currency", "target_currency"],
        ascending=True, inplace=True)`: rows end up in key order, and rows
        and labels are each a permutation of what they were. The contract
        leaves the order of rows tied on all three keys open. */
    method SortValues()
      requires Valid()
      modifies index, rows
      ensures Valid()
      ensures Sorted(rows[..])
      ensures multiset(rows[..]) == old(multiset(rows[..]))
      ensures multiset(index[..]) == old(multiset(index[..]))
    {
      for i := 0 to rows.Length
        invariant AdjacentSorted(rows[..i])
        invariant multiset(rows[..]) == old(multiset(rows[..]))
        invariant multiset(index[..]) == old(multiset(index[..]))
      {
        Insert(i);
      }
      assert rows[..rows.Length] == rows[..];
      AdjacentSortedIsSorted(rows[..]);
    }

    /** One insertion step: row `i` moves left past every greater row, so
        the sorted prefix grows by one. The prefix is rearranged among
        itself and the rows and labels after `i` stay where they are. */
    method Insert(i: nat)
      requires Valid() && i < rows.Length
      requires AdjacentSorted(rows[..i])
      modifies index, rows
      ensures Valid()
      ensures AdjacentSorted(rows[..i + 1])
      ensures multiset(rows[..i + 1]) == old(multiset(rows[..i + 1]))
      ensures multiset(index[..i + 1]) == old(multiset(index[..i + 1]))
      ensures rows[i + 1..] == old(rows[i + 1..]) && index[i + 1..] == old(index[i + 1..])
      ensures multiset(rows[..]) == old(multiset(rows[..]))
      ensures multiset(index[..]) == old(multiset(index[..]))
    {
      ghost var rows0, index0 := rows[..], index[..];
      Sink(i);
      assert rows[i + 1..] == rows0[i + 1..] && index[i + 1..] == index0[i + 1..];
      PrefixPermutation(rows0, rows[..], i + 1);
      PrefixPermutation(index0, index[..], i + 1);
    }

    /** The loop of an insertion step: row `i` sinks left one place at a
        time while the row before it is greater. */
    method Sink(i: nat)
      requires Valid() && i < rows.Length
      requires AdjacentSorted(rows[..i])
      modifies index, rows
      ensures Valid()
      ensures AdjacentSorted(rows[..i + 1])
      ensures forall k :: i < k < rows.Length ==> rows[k] == old(rows[k]) && index[k] == old(index[k])
      ensures multiset(rows[..]) == old(multiset(rows[..]))
      ensures multiset(index[..]) == old(multiset(index[..]))
    {
      var j := i;
      while 0 < j && !RowLe(rows[j - 1], rows[j])
        invariant 0 <= j <= i
        invariant forall k :: 0 < k <= i && k != j ==> RowLe(rows[k - 1], rows[k])
        invariant 0 < j < i ==> RowLe(rows[j - 1], rows[j + 1])
        invariant forall k :: i < k < rows.Length ==> rows[k] == old(rows[k]) && index[k] == old(index[k])
        invariant multiset(rows[..]) == old(multiset(rows[..]))
        invariant multiset(index[..]) == old(multiset(index[..]))
      {
        SinkStep(i, j);
        j := j - 1;
      }
    }

    /** Row `j`, on its way into the sorted prefix `rows[..i + 1]`, moves
        one place left past the greater row before it. The rest of the
        prefix stays in order and the suffix after `i` is untouched. */
    method SinkStep(i: nat, j: nat)
      requires Valid() && 0 < j <= i < rows.Length
      requires forall k :: 0 < k <= i && k != j ==> RowLe(rows[k - 1], rows[k])
      requires j < i ==> RowLe(rows[j - 1], rows[j + 1])
      requires !RowLe(rows[j - 1], rows[j])
      modifies index, rows
      ensures Valid()
      ensures forall k :: 0 < k <= i && k != j - 1 ==> RowLe(rows[k - 1], rows[k])
      ensures 1 < j ==> RowLe(rows[j - 2], rows[j])
      ensures forall k :: i < k < rows.Length ==> rows[k] == old(rows[k]) && index[k] == old(index[k])
      ensures multiset(rows[..]) == old(multiset(rows[..]))
      ensures multiset(index[..]) == old(multiset(index[..]))
    {
      RowLeTotal(rows[j - 1], rows[j]);
      Swap(j);
    }

    /** Exchanges the rows, and the labels, at positions j-1 and j. */
    method Swap(j: nat)
      requires Valid() && 0 < j < rows.Length
      modifies index, rows
      ensures Valid()
      ensures rows[j - 1] == old(rows[j]) && rows[j] == old(rows[j - 1])
      ensures index[j - 1] == old(index[j]) && index[j] == old(index[j - 1])
      ensures forall k :: 0 <= k < rows.Length && k != j - 1 && k != j ==>
                rows[k] == old(rows[k]) && index[k] == old(index[k])
      ensures multiset(rows[..]) == old(multiset(rows[..]))
      ensures multiset(index[..]) == old(multiset(index[..]))
    {
      rows[j - 1], rows[j] := rows[j], rows[j - 1];
      index[j - 1], index[j] := index[j], index[j - 1];
    }

    /** `reset_index(drop=True, inplace=True)`: the labels become 0..n-1;
        the rows stay as they are. */
    method ResetIndex()
      requires Valid()
      modifies index
      ensures Valid()
      ensures index[..] == Dense(index.Length)
      ensures unchanged(rows)
    {
      for i := 0 to index.Length
        invariant forall k :: 0 <= k < i ==> index[k] == k
      {
        index[i] := i;
      }
    }
  }
}
