// Windows of time on one node: sorting them, and when no two share an instant.
module NodeWindows {
  import opened Intervals
  import Sorting

  predicate Earlier(a: Interval, b: Interval) {
    a.start < b.start || (a.start == b.start && a.finish <= b.finish)
  }

  function InOrder(ws: seq<Interval>): seq<Interval> {
    Sorting.Sort(ws, Earlier)
  }

  // Some window starts before the one sorted ahead of it is over.
  predicate NeighboursOverlap(ws: seq<Interval>) {
    exists i :: 1 <= i < |ws| && ws[i].start < ws[i - 1].finish
  }

  predicate Disjoint(a: Interval, b: Interval) {
    a.finish <= b.start || b.finish <= a.start
  }

  ghost predicate ApartFrom(ws: seq<Interval>, w: Interval) {
    forall v :: v in ws ==> Disjoint(v, w)
  }

  // No two of the windows share an instant.
  ghost predicate Apart(ws: seq<Interval>) {
    ws == [] || (Apart(ws[..|ws| - 1]) && ApartFrom(ws[..|ws| - 1], ws[|ws| - 1]))
  }

  ghost predicate Ordered(ws: seq<Interval>) {
    forall i, j :: 0 <= i < j < |ws| ==> Earlier(ws[i], ws[j])
  }

  lemma {:induction false} InsertKeepsApart(ws: seq<Interval>, w: Interval)
    ensures Apart(Sorting.Insert(ws, w, Earlier)) <==> Apart(ws) && ApartFrom(ws, w)
  {
    if ws == [] || Earlier(ws[|ws| - 1], w) {
      assert (ws + [w])[..|ws|] == ws;
    } else {
      var front, last := ws[..|ws| - 1], ws[|ws| - 1];
      InsertKeepsApart(front, w);
      Sorting.InsertMembers(front, w, Earlier);
      var r := Sorting.Insert(front, w, Earlier);
      assert (r + [last])[..|r|] == r;
      assert ws == front + [last];
      ApartFromMembers(r, front, w, last);
      ApartFromMembers(ws, front, last, w);
    }
  }

  lemma ApartFromMembers(all: seq<Interval>, front: seq<Interval>, more: Interval, w: Interval)
    requires forall v :: v in all <==> v in front || v == more
    ensures ApartFrom(all, w) <==> ApartFrom(front, w) && Disjoint(more, w)
  {
  }

  lemma OrderIsOrdered(ws: seq<Interval>)
    ensures Ordered(InOrder(ws)) && forall v :: v in InOrder(ws) <==> v in ws
  {
    assert Sorting.TotalOrder(Earlier);
    Sorting.SortOrders(ws, Earlier);
    Sorting.SortMembers(ws, Earlier);
  }

  lemma {:induction false} OrderKeepsApart(ws: seq<Interval>)
    ensures Apart(InOrder(ws)) <==> Apart(ws)
  {
    if ws != [] {
      var front, last := ws[..|ws| - 1], ws[|ws| - 1];
      OrderKeepsApart(front);
      OrderIsOrdered(front);
      InsertKeepsApart(InOrder(front), last);
    }
  }

  // For proper windows in order, neighbours decide for all pairs.
  lemma {:induction false} NeighboursDecide(ws: seq<Interval>)
    requires Ordered(ws) && AllProper(ws)
    ensures Apart(ws) <==> !NeighboursOverlap(ws)
    ensures Apart(ws) && ws != [] ==> forall i :: 0 <= i < |ws| ==> ws[i].finish <= ws[|ws| - 1].finish
  {
    if |ws| > 1 {
      var front, last := ws[..|ws| - 1], ws[|ws| - 1];
      var before := front[|front| - 1];
      NeighboursDecide(front);
      assert before in front && Earlier(before, last);
      if Apart(front) && before.finish <= last.start {
        forall v | v in front ensures Disjoint(v, last) {
          var i :| 0 <= i < |front| && front[i] == v;
        }
      }
    }
  }
}
