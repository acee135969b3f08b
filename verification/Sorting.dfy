// Insertion sort by an order.
//
// It stands for Python's sorted where the analysis uses it: on the changes of the running
// count, on the values of a percentile, and on the windows of the trials of one node. An
// order that relates any two values and is transitive puts a list in order and keeps its
// members. Elements that the order holds equal keep their places, as Python's sort is
// stable. What else sorting keeps, such as sums and counts, is proved where it is used,
// from the recursion of Insert.
module Sorting {

  function Insert<T>(xs: seq<T>, x: T, atMost: (T, T) -> bool): seq<T> {
    if xs == [] || atMost(xs[|xs| - 1], x) then xs + [x]
    else Insert(xs[..|xs| - 1], x, atMost) + [xs[|xs| - 1]]
  }

  function Sort<T>(xs: seq<T>, atMost: (T, T) -> bool): seq<T> {
    if xs == [] then [] else Insert(Sort(xs[..|xs| - 1], atMost), xs[|xs| - 1], atMost)
  }

  ghost predicate Ordered<T>(xs: seq<T>, atMost: (T, T) -> bool) {
    forall i, j :: 0 <= i < j < |xs| ==> atMost(xs[i], xs[j])
  }

  ghost predicate TotalOrder<T(!new)>(atMost: (T, T) -> bool) {
    && (forall a, b :: atMost(a, b) || atMost(b, a))
    && (forall a, b, c :: atMost(a, b) && atMost(b, c) ==> atMost(a, c))
  }

  lemma {:induction false} InsertMembers<T>(xs: seq<T>, x: T, atMost: (T, T) -> bool)
    ensures |Insert(xs, x, atMost)| == |xs| + 1
    ensures forall y :: y in Insert(xs, x, atMost) <==> y in xs || y == x
  {
    if xs != [] && !atMost(xs[|xs| - 1], x) {
      InsertMembers(xs[..|xs| - 1], x, atMost);
      assert xs == xs[..|xs| - 1] + [xs[|xs| - 1]];
    }
  }

  lemma {:induction false} InsertOrders<T(!new)>(xs: seq<T>, x: T, atMost: (T, T) -> bool)
    requires TotalOrder(atMost) && Ordered(xs, atMost)
    ensures Ordered(Insert(xs, x, atMost), atMost)
  {
    if xs != [] {
      var front, last := xs[..|xs| - 1], xs[|xs| - 1];
      if atMost(last, x) {
        forall i | 0 <= i < |xs| ensures atMost(xs[i], x) {
          assert i == |xs| - 1 || atMost(xs[i], last);
        }
      } else {
        var r := Insert(front, x, atMost);
        InsertOrders(front, x, atMost);
        InsertMembers(front, x, atMost);
        forall i | 0 <= i < |r| ensures atMost(r[i], last) {
          assert r[i] in r;
        }
      }
    }
  }

  lemma {:induction false} SortMembers<T>(xs: seq<T>, atMost: (T, T) -> bool)
    ensures |Sort(xs, atMost)| == |xs|
    ensures forall y :: y in Sort(xs, atMost) <==> y in xs
  {
    if xs != [] {
      var front, last := xs[..|xs| - 1], xs[|xs| - 1];
      SortMembers(front, atMost);
      InsertMembers(Sort(front, atMost), last, atMost);
      assert xs == front + [last];
    }
  }

  lemma {:induction false} SortOrders<T(!new)>(xs: seq<T>, atMost: (T, T) -> bool)
    requires TotalOrder(atMost)
    ensures Ordered(Sort(xs, atMost), atMost)
  {
    if xs != [] {
      SortOrders(xs[..|xs| - 1], atMost);
      InsertOrders(Sort(xs[..|xs| - 1], atMost), xs[|xs| - 1], atMost);
    }
  }
}
