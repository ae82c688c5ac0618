/**
 * The allocation priority order and the stable in-place sort that
 * `batches.sort()` performs on a list of batches: no-ETA batches first, then
 * the earliest ETA, and batches with equal ETAs in their input order.
 *
 * The sort is described on positions: `SortOrder(keys, n)` lists the input
 * positions 0..n-1 in the order the sorted list takes them from.
 */
module Ordering {
  import opened Models

  /** Every position in `order` points into a list of length `n`. */
  predicate InRange(order: seq<nat>, n: nat)
  {
    forall p :: 0 <= p < |order| ==> order[p] < n
  }

  /**
   * Input position `i` comes before input position `j` in a stable sort by
   * ETA: its ETA is strictly earlier, or the ETAs agree and `i` came first.
   */
  predicate Precedes(keys: seq<Eta>, i: nat, j: nat)
    requires i < |keys| && j < |keys|
  {
    EtaAfter(keys[j], keys[i]) || (keys[i] == keys[j] && i < j)
  }

  /** `order` lists positions in strictly increasing `Precedes` order. */
  predicate SortedBy(keys: seq<Eta>, order: seq<nat>)
    requires InRange(order, |keys|)
  {
    forall p, q :: 0 <= p < q < |order| ==> Precedes(keys, order[p], order[q])
  }

  /** Places position `i` before the first listed position whose ETA is strictly later. */
  function Insert(keys: seq<Eta>, i: nat, order: seq<nat>): (r: seq<nat>)
    requires i < |keys| && InRange(order, |keys|)
    ensures |r| == |order| + 1 && InRange(r, |keys|)
    ensures forall x :: x in r <==> x == i || x in order
  {
    if order == [] then [i]
    else if EtaAfter(keys[order[0]], keys[i]) then [i] + order
    else [order[0]] + Insert(keys, i, order[1..])
  }

  /** The positions 0..n-1 in the order a stable sort of `keys[..n]` takes them. */
  function SortOrder(keys: seq<Eta>, n: nat): (r: seq<nat>)
    requires n <= |keys|
    ensures |r| == n && InRange(r, n)
    ensures forall x: nat :: x in r <==> x < n
  {
    if n == 0 then []
    else
      var r := Insert(keys, n - 1, SortOrder(keys, n - 1));
      assert forall p :: 0 <= p < |r| ==> r[p] in r;
      r
  }

  /** The list that takes its `p`-th element from position `order[p]` of `s`. */
  function Permute<T>(s: seq<T>, order: seq<nat>): seq<T>
    requires InRange(order, |s|)
  {
    seq(|order|, p requires 0 <= p < |order| => s[order[p]])
  }

  /** The ETAs of a list of batches, position by position. */
  function Etas(s: seq<Batch>): seq<Eta>
  {
    seq(|s|, i requires 0 <= i < |s| => s[i].eta)
  }

  /** `batches.sort()`: the batches in allocation priority order. */
  function PrioritySorted(s: seq<Batch>): (r: seq<Batch>)
    ensures |r| == |s| && multiset(r) == multiset(s)
  {
    SortOrderIsPermutation(s, Etas(s), |s|);
    assert s[..|s|] == s;
    Permute(s, SortOrder(Etas(s), |s|))
  }

  /** `batches.sort()` on a list: rearranges it in place into priority order. */
  method SortByPriority(batches: array<Batch>)
    modifies batches
    ensures batches[..] == PrioritySorted(old(batches[..]))
  {
    var sorted := PrioritySorted(batches[..]);
    PrioritySortedIsStableSort(batches[..]);
    forall i | 0 <= i < batches.Length {
      batches[i] := sorted[i];
    }
  }

  /** `Precedes` is a strict total order on the positions of one list. */
  lemma PrecedesIsStrictTotalOrder(keys: seq<Eta>, i: nat, j: nat, k: nat)
    requires i < |keys| && j < |keys| && k < |keys|
    ensures !Precedes(keys, i, i)
    ensures i != j ==> (Precedes(keys, i, j) <==> !Precedes(keys, j, i))
    ensures Precedes(keys, i, j) && Precedes(keys, j, k) ==> Precedes(keys, i, k)
  {
  }

  /** Inserting a position later than all listed ones keeps the list sorted. */
  lemma {:induction false} InsertKeepsSorted(keys: seq<Eta>, i: nat, order: seq<nat>)
    requires i < |keys| && InRange(order, |keys|)
    requires SortedBy(keys, order)
    requires forall p :: 0 <= p < |order| ==> order[p] < i
    ensures SortedBy(keys, Insert(keys, i, order))
  {
    if order == [] {
    } else if EtaAfter(keys[order[0]], keys[i]) {
      var r := [i] + order;
      forall p, q | 0 <= p < q < |r| ensures Precedes(keys, r[p], r[q]) {
        if p == 0 && q > 1 {
          PrecedesIsStrictTotalOrder(keys, i, order[0], order[q - 1]);
        }
      }
    } else {
      var rest := order[1..];
      InsertKeepsSorted(keys, i, rest);
      var tail := Insert(keys, i, rest);
      var r := [order[0]] + tail;
      assert Precedes(keys, order[0], i);
      forall p, q | 0 <= p < q < |r| ensures Precedes(keys, r[p], r[q]) {
        if p == 0 {
          assert r[q] in tail;
          if r[q] != i {
            assert r[q] in rest;
            var q' :| 0 <= q' < |rest| && rest[q'] == r[q];
            assert order[q' + 1] == r[q];
          }
        }
      }
    }
  }

  /** The positions come out in strictly increasing priority order. */
  lemma {:induction false} SortOrderIsSorted(keys: seq<Eta>, n: nat)
    requires n <= |keys|
    ensures SortedBy(keys, SortOrder(keys, n))
  {
    if n > 0 {
      SortOrderIsSorted(keys, n - 1);
      InsertKeepsSorted(keys, n - 1, SortOrder(keys, n - 1));
    }
  }

  /** Permuting by a position followed by more positions takes that element first. */
  lemma PermuteCons<T>(s: seq<T>, x: nat, order: seq<nat>)
    requires x < |s| && InRange(order, |s|)
    ensures InRange([x] + order, |s|)
    ensures Permute(s, [x] + order) == [s[x]] + Permute(s, order)
  {
    assert forall p :: 0 < p < |[x] + order| ==> ([x] + order)[p] == order[p - 1];
  }

  /** Inserting position `i` adds exactly the element at `i` to the permuted list. */
  lemma {:induction false} PermuteInsert<T>(s: seq<T>, keys: seq<Eta>, i: nat, order: seq<nat>)
    requires |keys| == |s| && i < |s| && InRange(order, |s|)
    ensures multiset(Permute(s, Insert(keys, i, order))) == multiset(Permute(s, order)) + multiset{s[i]}
  {
    if order == [] {
      assert Permute(s, [i]) == [s[i]];
    } else if EtaAfter(keys[order[0]], keys[i]) {
      PermuteCons(s, i, order);
    } else {
      var rest := order[1..];
      var tail := Insert(keys, i, rest);
      PermuteInsert(s, keys, i, rest);
      PermuteCons(s, order[0], tail);
      assert order == [order[0]] + rest;
      PermuteCons(s, order[0], rest);
      calc {
        multiset(Permute(s, Insert(keys, i, order)));
        multiset([s[order[0]]] + Permute(s, tail));
        multiset{s[order[0]]} + multiset(Permute(s, rest)) + multiset{s[i]};
        multiset(Permute(s, order)) + multiset{s[i]};
      }
    }
  }

  /** Taking the elements in sort order loses and duplicates nothing. */
  lemma {:induction false} SortOrderIsPermutation<T>(s: seq<T>, keys: seq<Eta>, n: nat)
    requires |keys| == |s| && n <= |s|
    ensures multiset(Permute(s, SortOrder(keys, n))) == multiset(s[..n])
  {
    if n > 0 {
      SortOrderIsPermutation(s, keys, n - 1);
      PermuteInsert(s, keys, n - 1, SortOrder(keys, n - 1));
      assert s[..n] == s[..n - 1] + [s[n - 1]];
    }
  }

  /**
   * `batches.sort()` yields a permutation of its input in which no batch is
   * `<` a batch before it, and batches with equal ETAs keep their input order.
   */
  lemma PrioritySortedIsStableSort(s: seq<Batch>)
    ensures |PrioritySorted(s)| == |s|
    ensures multiset(PrioritySorted(s)) == multiset(s)
    ensures forall p, q :: 0 <= p < q < |s| ==> !LessThan(PrioritySorted(s)[q], PrioritySorted(s)[p])
    ensures var order := SortOrder(Etas(s), |s|);
      forall p, q :: 0 <= p < q < |s| && PrioritySorted(s)[p].eta == PrioritySorted(s)[q].eta ==> order[p] < order[q]
  {
    var keys := Etas(s);
    var order := SortOrder(keys, |s|);
    SortOrderIsSorted(keys, |s|);
    SortOrderIsPermutation(s, keys, |s|);
    assert s[..|s|] == s;
    var r := PrioritySorted(s);
    forall p, q | 0 <= p < q < |s| ensures !LessThan(r[q], r[p]) {
      assert Precedes(keys, order[p], order[q]);
    }
  }

  /**
   * Position `i` is the first one, in priority order, among the positions
   * whose `fits` flag is set.
   */
  predicate IsPriorityFirst(keys: seq<Eta>, fits: seq<bool>, i: nat)
  {
    && |fits| == |keys|
    && i < |keys|
    && fits[i]
    && forall j :: 0 <= j < |keys| && j != i && fits[j] ==> Precedes(keys, i, j)
  }

  /** At most one position is first in priority order. */
  lemma PriorityFirstIsUnique(keys: seq<Eta>, fits: seq<bool>, i: nat, j: nat)
    requires IsPriorityFirst(keys, fits, i) && IsPriorityFirst(keys, fits, j)
    ensures i == j
  {
    if i != j {
      PrecedesIsStrictTotalOrder(keys, i, j, i);
    }
  }

  /**
   * The priority-first position has an ETA no later than any other fitting
   * position, whatever the input order: the order only breaks ties.
   */
  lemma PriorityFirstHasEarliestEta(keys: seq<Eta>, fits: seq<bool>, i: nat)
    requires IsPriorityFirst(keys, fits, i)
    ensures forall j :: 0 <= j < |keys| && fits[j] ==> !EtaAfter(keys[i], keys[j])
  {
    forall j | 0 <= j < |keys| && fits[j] ensures !EtaAfter(keys[i], keys[j]) {
      PriorityIsStrictWeakOrder(keys[i], keys[j], keys[j]);
    }
  }

  /**
   * First fit over the sorted list: when the element at sorted position `p`
   * fits and none before it does, its input position is the priority-first
   * fitting one.
   */
  lemma FirstFitInSortedIsPriorityFirst(keys: seq<Eta>, fits: seq<bool>, p: nat)
    requires |fits| == |keys| && p < |keys|
    requires fits[SortOrder(keys, |keys|)[p]]
    requires forall q :: 0 <= q < p ==> !fits[SortOrder(keys, |keys|)[q]]
    ensures IsPriorityFirst(keys, fits, SortOrder(keys, |keys|)[p])
  {
    var order := SortOrder(keys, |keys|);
    SortOrderIsSorted(keys, |keys|);
    var i := order[p];
    forall j | 0 <= j < |keys| && j != i && fits[j] ensures Precedes(keys, i, j) {
      assert j in order;
      var q :| 0 <= q < |order| && order[q] == j;
      assert q != p;
    }
  }

  /** When no element of the sorted list fits, no input position fits. */
  lemma NoFitInSortedMeansNoFit(keys: seq<Eta>, fits: seq<bool>)
    requires |fits| == |keys|
    requires forall q :: 0 <= q < |keys| ==> !fits[SortOrder(keys, |keys|)[q]]
    ensures forall j :: 0 <= j < |keys| ==> !fits[j]
  {
    var order := SortOrder(keys, |keys|);
    forall j | 0 <= j < |keys| ensures !fits[j] {
      assert j in order;
      var q :| 0 <= q < |order| && order[q] == j;
    }
  }
}
