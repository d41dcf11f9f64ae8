/** Strictly ascending sequences over a strict order. */
module Ordering {

  ghost predicate StrictOrder<T(!new)>(less: (T, T) -> bool) {
    && (forall a :: !less(a, a))
    && (forall a, b, c :: less(a, b) && less(b, c) ==> less(a, c))
  }

  ghost predicate StrictTotalOrder<T(!new)>(less: (T, T) -> bool) {
    StrictOrder(less) && forall a, b :: a != b ==> less(a, b) || less(b, a)
  }

  predicate Ascending<T>(s: seq<T>, less: (T, T) -> bool) {
    forall i, j | 0 <= i < j < |s| :: less(s[i], s[j])
  }

  predicate Distinct<T(==)>(s: seq<T>) {
    forall i, j | 0 <= i < j < |s| :: s[i] != s[j]
  }

  ghost predicate SameElements<T(!new)>(a: seq<T>, b: seq<T>) {
    forall x :: x in a <==> x in b
  }

  /** An ascending sequence is determined by its elements. */
  lemma {:induction false} AscendingIsUnique<T(!new)>(a: seq<T>, b: seq<T>, less: (T, T) -> bool)
    requires StrictOrder(less) && Ascending(a, less) && Ascending(b, less) && SameElements(a, b)
    ensures a == b
  {
    assert |a| > 0 ==> a[0] in a;
    assert |b| > 0 ==> b[0] in b;
    if a == [] || b == [] {
    } else {
      assert a[0] in b && b[0] in a;
      assert a[0] == b[0];
      forall x ensures x in a[1..] <==> x in b[1..] {
        TailElements(a, less, x);
        TailElements(b, less, x);
      }
      AscendingIsUnique(a[1..], b[1..], less);
    }
  }

  lemma TailElements<T(!new)>(a: seq<T>, less: (T, T) -> bool, x: T)
    requires StrictOrder(less) && Ascending(a, less) && a != []
    ensures x in a[1..] <==> x in a && x != a[0]
  {
    if x in a && x != a[0] {
      var i :| 0 <= i < |a| && a[i] == x;
      assert a[1..][i - 1] == x;
    }
  }

  /** The i-th element of a part is at position i or later in the whole. */
  lemma {:induction false} PositionInWhole<T(!new)>(part: seq<T>, whole: seq<T>, less: (T, T) -> bool, i: nat, j: nat)
    requires StrictOrder(less) && Ascending(part, less) && Ascending(whole, less)
    requires forall x | x in part :: x in whole
    requires i < |part| && j < |whole| && part[i] == whole[j]
    ensures i <= j
  {
    if i > 0 {
      assert part[i - 1] in whole;
      var k :| 0 <= k < |whole| && whole[k] == part[i - 1];
      assert less(whole[k], whole[j]);
      PositionInWhole(part, whole, less, i - 1, k);
    }
  }
}
